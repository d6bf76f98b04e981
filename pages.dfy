/**
 * The page objects: BasePage's element helpers and the two sample login
 * pages. Page-factory fields are proxies that look their element up again on
 * every call, waiting up to the decorator's timeout for it to be present;
 * the By overloads go through WaitUtils with the default timeout.
 */
module Pages {
  import opened Wrappers
  import opened Ui
  import opened Waits
  import opened Drivers
  import opened Config

  /** The AppiumFieldDecorator lookup timeout, in seconds. */
  const FIELD_LOOKUP_TIMEOUT: int := 10
  /** The fixed visibility wait of isDisplayed(By), in seconds. */
  const DISPLAY_CHECK_TIMEOUT: int := 5

  /** The element a field proxy finds, or the NoSuchElementException it throws. */
  function Locate(elements: Elements, field: Locator): (r: Result<Element, WaitError>)
    ensures r.Success? <==> WaitFor(elements, Present, field, FIELD_LOOKUP_TIMEOUT).Success?
    ensures r.Success? ==> r.value == elements[field]
    ensures r.Failure? ==> r.error == NoSuchElementException(field)
  {
    match WaitFor(elements, Present, field, FIELD_LOOKUP_TIMEOUT)
    case Success(e) => Success(e)
    case Failure(_) => Failure(NoSuchElementException(field))
  }

  /** Whether a field proxy finds its element. */
  predicate Found(elements: Elements, field: Locator) {
    Locate(elements, field).Success?
  }

  /** The element calls of enterText: clear(), then sendKeys(text). */
  function EnterTextTrace(target: Locator, text: string): seq<Action> {
    [Cleared(target), Typed(target, text)]
  }

  /** The four fields of a login page. */
  datatype LoginFields = LoginFields(username: Locator, password: Locator, loginButton: Locator, welcomeMessage: Locator)

  const ANDROID_FIELDS: LoginFields := LoginFields(
    By(Id, "com.example.app:id/username"),
    By(Id, "com.example.app:id/password"),
    By(Id, "com.example.app:id/login_button"),
    By(Id, "com.example.app:id/welcome_message"))

  const IOS_FIELDS: LoginFields := LoginFields(
    By(Id, "username"),
    By(Id, "password"),
    By(Id, "loginButton"),
    By(Id, "welcomeMessage"))

  /** The element calls of a complete performLogin. */
  function LoginTrace(f: LoginFields, username: string, password: string): (t: seq<Action>)
    ensures |t| == 5 && ElementCalls(t)
    ensures t[1] == Typed(f.username, username) && t[3] == Typed(f.password, password) && t[4] == Clicked(f.loginButton)
  {
    EnterTextTrace(f.username, username) + EnterTextTrace(f.password, password) + [Clicked(f.loginButton)]
  }

  /**
   * The element calls performLogin gets through on this screen: it stops at
   * the first field whose element cannot be found.
   */
  function LoginPerformed(elements: Elements, f: LoginFields, username: string, password: string): (t: seq<Action>)
    ensures |t| <= |LoginTrace(f, username, password)| && t == LoginTrace(f, username, password)[..|t|]
  {
    var full := LoginTrace(f, username, password);
    assert |full| == 5;
    if !Found(elements, f.username) then full[..0]
    else if !Found(elements, f.password) then full[..2]
    else if !Found(elements, f.loginButton) then full[..4]
    else full[..5]
  }

  /** How performLogin ends: the first missing field's NoSuchElementException, else normally. */
  function LoginOutcome(elements: Elements, f: LoginFields): (r: Outcome<WaitError>)
    ensures r.Pass? <==> Found(elements, f.username) && Found(elements, f.password) && Found(elements, f.loginButton)
  {
    if !Found(elements, f.username) then Fail(NoSuchElementException(f.username))
    else if !Found(elements, f.password) then Fail(NoSuchElementException(f.password))
    else if !Found(elements, f.loginButton) then Fail(NoSuchElementException(f.loginButton))
    else Pass
  }

  /** The screen after a login: the two fields hold exactly what was typed. */
  function LoggedIn(elements: Elements, f: LoginFields, username: string, password: string): Elements
    requires f.username in elements && f.password in elements
  {
    elements[f.username := elements[f.username].(text := username)]
            [f.password := elements[f.password].(text := password)]
  }

  /** A complete login types the username, then the password, then clicks the button once. */
  lemma LoginTraceShape(f: LoginFields, username: string, password: string)
    ensures LoginTrace(f, username, password) ==
      [Cleared(f.username), Typed(f.username, username), Cleared(f.password), Typed(f.password, password), Clicked(f.loginButton)]
    ensures Clicks(LoginTrace(f, username, password)) == [f.loginButton]
  {
    var t := LoginTrace(f, username, password);
    assert t == [Cleared(f.username), Typed(f.username, username), Cleared(f.password), Typed(f.password, password), Clicked(f.loginButton)];
    assert t[..4][..3][..2][..1][..0] == [];
    assert Clicks(t[..1]) == [];
    assert Clicks(t[..2]) == [] by { assert t[..2][..1] == t[..1]; }
    assert Clicks(t[..3]) == [] by { assert t[..3][..2] == t[..2]; }
    assert Clicks(t[..4]) == [] by { assert t[..4][..3] == t[..3]; }
    assert t[..5] == t;
  }

  /** Replaying a complete login on a screen where both text fields exist gives LoggedIn. */
  lemma LoginEffect(elements: Elements, f: LoginFields, username: string, password: string)
    requires f.username in elements && f.password in elements
    ensures Replay(elements, LoginTrace(f, username, password)) == LoggedIn(elements, f, username, password)
  {
    var first := EnterTextTrace(f.username, username);
    var second := EnterTextTrace(f.password, password);
    ReplayAppend(elements, first + second, [Clicked(f.loginButton)]);
    ReplayAppend(elements, first, second);
    EnterTextResult(elements, f.username, username);
    var afterFirst := elements[f.username := elements[f.username].(text := username)];
    EnterTextResult(afterFirst, f.password, password);
    ReplaySnoc(Replay(elements, first + second), [], Clicked(f.loginButton));
    assert [] + [Clicked(f.loginButton)] == [Clicked(f.loginButton)];
  }

  /** Which prefix of the login trace is performed, case by case. */
  lemma LoginPerformedCases(elements: Elements, f: LoginFields, username: string, password: string)
    ensures !Found(elements, f.username) ==> LoginPerformed(elements, f, username, password) == []
    ensures Found(elements, f.username) && !Found(elements, f.password) ==>
      LoginPerformed(elements, f, username, password) == EnterTextTrace(f.username, username)
    ensures Found(elements, f.username) && Found(elements, f.password) && !Found(elements, f.loginButton) ==>
      LoginPerformed(elements, f, username, password) == EnterTextTrace(f.username, username) + EnterTextTrace(f.password, password)
    ensures LoginOutcome(elements, f).Pass? ==> LoginPerformed(elements, f, username, password) == LoginTrace(f, username, password)
  {
    var full := LoginTrace(f, username, password);
    assert full[..0] == [];
    assert full[..2] == EnterTextTrace(f.username, username);
    assert full[..4] == EnterTextTrace(f.username, username) + EnterTextTrace(f.password, password);
    assert full[..5] == full;
  }

  /** Typing into one element does not change which fields a proxy finds. */
  lemma FoundAfterTyping(elements: Elements, target: Locator, text: string, field: Locator)
    requires target in elements
    ensures Found(elements[target := elements[target].(text := text)], field) == Found(elements, field)
  {
  }

  /**
   * Whether the welcome message is there after performLogin is up to the
   * application: the login's own calls, however far they get, never make it
   * appear or go away, and once the application renders the screen that
   * follows, the welcome check reads that screen.
   */
  lemma {:induction false} WelcomeAfterLoginResponse(start: Elements, f: LoginFields, username: string, password: string, next: Elements)
    ensures Found(Replay(start, LoginPerformed(start, f, username, password)), f.welcomeMessage) == Found(start, f.welcomeMessage)
    ensures Found(Replay(start, LoginPerformed(start, f, username, password) + [Rendered(next)]), f.welcomeMessage)
         == Found(next, f.welcomeMessage)
  {
    var performed := LoginPerformed(start, f, username, password);
    ReplayKeepsLayout(start, performed);
    ReplaySnoc(start, performed, Rendered(next));
  }

  /** Each page's four fields are four different locators. */
  lemma FieldsDistinct()
    ensures var f := ANDROID_FIELDS;
      f.username != f.password && f.username != f.loginButton && f.password != f.loginButton
      && f.welcomeMessage != f.username && f.welcomeMessage != f.password && f.welcomeMessage != f.loginButton
    ensures var f := IOS_FIELDS;
      f.username != f.password && f.username != f.loginButton && f.password != f.loginButton
      && f.welcomeMessage != f.username && f.welcomeMessage != f.password && f.welcomeMessage != f.loginButton
  {
    var a := ANDROID_FIELDS;
    assert a.username.value[19] == 'u' && a.password.value[19] == 'p' && a.loginButton.value[19] == 'l';
    assert a.welcomeMessage.value[19] == 'w';
    var i := IOS_FIELDS;
    assert i.username.value[0] == 'u' && i.password.value[0] == 'p' && i.loginButton.value[0] == 'l';
    assert i.welcomeMessage.value[0] == 'w';
  }

  /** BasePage: the driver taken at construction and the element helpers. */
  class BasePage {
    /** The screen of the session the page acts on. */
    const screen: Screen
    /** DriverManager.getDriver() when the page was constructed. */
    const driver: Option<Driver>
    /** WaitUtils.DEFAULT_TIMEOUT: explicit.wait of the configuration, 20 when unset. */
    const defaultTimeout: int

    /**
     * The page of the calling thread. WaitUtils reads explicit.wait once, in
     * its static initializer, which fails when the value does not parse.
     */
    constructor (screen: Screen, manager: DriverManager, ctx: ContextId, props: Properties)
      requires DefaultTimeout(props).Some?
      ensures this.screen == screen && driver == manager.GetDriver(ctx)
      ensures Some(defaultTimeout) == DefaultTimeout(props)
    {
      this.screen := screen;
      driver := manager.GetDriver(ctx);
      defaultTimeout := DefaultTimeout(props).value;
    }

    /** click(WebElement): the proxy finds the element, which is clicked. */
    method ClickElement(field: Locator) returns (r: Outcome<WaitError>)
      requires screen.Valid()
      modifies screen
      ensures screen.Valid()
      ensures r == (if Found(old(screen.elements), field) then Pass else Fail(NoSuchElementException(field)))
      ensures screen.log == old(screen.log) + (if r.Pass? then [Clicked(field)] else [])
      ensures screen.elements == old(screen.elements)
    {
      var found := Locate(screen.elements, field);
      if found.Failure? {
        return Fail(found.error);
      }
      screen.Click(field);
      return Pass;
    }

    /** click(By): a clickable-wait with the default timeout, then the click; a timeout propagates. */
    method ClickLocator(locator: Locator) returns (r: Outcome<WaitError>)
      requires screen.Valid()
      modifies screen
      ensures screen.Valid()
      ensures WaitFor(old(screen.elements), Clickable, locator, defaultTimeout).Failure? ==>
        r == Fail(TimeoutException(Clickable, locator, defaultTimeout)) && screen.log == old(screen.log)
      ensures WaitFor(old(screen.elements), Clickable, locator, defaultTimeout).Success? ==>
        r == Pass && screen.log == old(screen.log) + [Clicked(locator)]
      ensures screen.elements == old(screen.elements)
    {
      var found := WaitFor(screen.elements, Clickable, locator, defaultTimeout);
      if found.Failure? {
        return Fail(found.error);
      }
      screen.Click(locator);
      return Pass;
    }

    /** clear() then sendKeys(text) on an element already found. */
    method ClearAndType(target: Locator, text: string)
      requires screen.Valid()
      requires target in screen.elements
      modifies screen
      ensures screen.Valid()
      ensures screen.log == old(screen.log) + EnterTextTrace(target, text)
      ensures screen.elements == old(screen.elements)[target := old(screen.elements)[target].(text := text)]
    {
      screen.Clear(target);
      screen.SendKeys(target, text);
      assert "" + text == text;
    }

    /** enterText(WebElement, text): clear, then type; the field then holds exactly `text`. */
    method EnterTextElement(field: Locator, text: string) returns (r: Outcome<WaitError>)
      requires screen.Valid()
      modifies screen
      ensures screen.Valid()
      ensures r == (if Found(old(screen.elements), field) then Pass else Fail(NoSuchElementException(field)))
      ensures r.Fail? ==> screen.log == old(screen.log) && screen.elements == old(screen.elements)
      ensures r.Pass? ==>
        && screen.log == old(screen.log) + EnterTextTrace(field, text)
        && screen.elements == old(screen.elements)[field := old(screen.elements)[field].(text := text)]
    {
      var found := Locate(screen.elements, field);
      if found.Failure? {
        return Fail(found.error);
      }
      ClearAndType(field, text);
      return Pass;
    }

    /** enterText(By, text): a visibility-wait with the default timeout, then clear and type. */
    method EnterTextLocator(locator: Locator, text: string) returns (r: Outcome<WaitError>)
      requires screen.Valid()
      modifies screen
      ensures screen.Valid()
      ensures WaitFor(old(screen.elements), Visible, locator, defaultTimeout).Failure? ==>
        && r == Fail(TimeoutException(Visible, locator, defaultTimeout))
        && screen.log == old(screen.log) && screen.elements == old(screen.elements)
      ensures WaitFor(old(screen.elements), Visible, locator, defaultTimeout).Success? ==>
        && r == Pass
        && screen.log == old(screen.log) + EnterTextTrace(locator, text)
        && screen.elements == old(screen.elements)[locator := old(screen.elements)[locator].(text := text)]
    {
      var found := WaitFor(screen.elements, Visible, locator, defaultTimeout);
      if found.Failure? {
        return Fail(found.error);
      }
      ClearAndType(locator, text);
      return Pass;
    }

    /** getText(WebElement): the element's current text; nothing changes. */
    method GetTextElement(field: Locator) returns (r: Result<string, WaitError>)
      ensures r.Success? <==> Found(screen.elements, field)
      ensures r.Success? ==> r.value == screen.elements[field].text
      ensures r.Failure? ==> r.error == NoSuchElementException(field)
    {
      var found := Locate(screen.elements, field);
      if found.Failure? {
        return Failure(found.error);
      }
      return Success(found.value.text);
    }

    /** getText(By): a visibility-wait with the default timeout, then the text; nothing changes. */
    method GetTextLocator(locator: Locator) returns (r: Result<string, WaitError>)
      ensures r.Success? <==> WaitFor(screen.elements, Visible, locator, defaultTimeout).Success?
      ensures r.Success? ==> r.value == screen.elements[locator].text
      ensures r.Failure? ==> r.error == TimeoutException(Visible, locator, defaultTimeout)
    {
      var found := WaitFor(screen.elements, Visible, locator, defaultTimeout);
      if found.Failure? {
        return Failure(found.error);
      }
      return Success(found.value.text);
    }

    /** isDisplayed(WebElement): element.isDisplayed(); a failed lookup propagates. */
    method IsDisplayedElement(field: Locator) returns (r: Result<bool, WaitError>)
      ensures r.Success? <==> Found(screen.elements, field)
      ensures r.Success? ==> r.value == screen.elements[field].displayed
      ensures r.Failure? ==> r.error == NoSuchElementException(field)
    {
      var found := Locate(screen.elements, field);
      if found.Failure? {
        return Failure(found.error);
      }
      return Success(found.value.displayed);
    }

    /**
     * isDisplayed(By): a 5-second visibility-wait and isDisplayed(); every
     * failure is caught and reported as false.
     */
    method IsDisplayedLocator(locator: Locator) returns (b: bool)
      ensures b <==> WaitFor(screen.elements, Visible, locator, DISPLAY_CHECK_TIMEOUT).Success?
      ensures b ==> screen.elements[locator].displayed
    {
      var found := WaitFor(screen.elements, Visible, locator, DISPLAY_CHECK_TIMEOUT);
      if found.Failure? {
        return false;
      }
      return found.value.displayed;
    }

    /** waitForElement(By): the default-timeout visibility-wait, failure included. */
    method WaitForElement(locator: Locator) returns (r: Result<Element, WaitError>)
      ensures r.Success? <==> WaitFor(screen.elements, Visible, locator, defaultTimeout).Success?
      ensures r.Success? ==> r.value == screen.elements[locator] && r.value.displayed
      ensures r.Failure? ==> r.error == TimeoutException(Visible, locator, defaultTimeout)
    {
      r := WaitFor(screen.elements, Visible, locator, defaultTimeout);
    }
  }
}
