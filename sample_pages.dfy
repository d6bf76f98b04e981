/**
 * SampleAndroidPage and SampleIOSPage: the same login page over two sets of
 * locators. Each method delegates to BasePage's element overloads with the
 * page's own fields.
 */
module SamplePages {
  import opened Wrappers
  import opened Ui
  import opened Waits
  import opened Drivers
  import opened Pages

  /** SampleAndroidPage: the login page with Android locators. */
  class SampleAndroidPage {
    const base: BasePage
    /** The page's four fields, located by the Android ids. */
    const fields: LoginFields

    constructor (base: BasePage)
      ensures this.base == base && fields == ANDROID_FIELDS
    {
      this.base := base;
      fields := ANDROID_FIELDS;
    }

    /** enterUsername: enterText on the username field, which then holds exactly `username`. */
    method EnterUsername(username: string) returns (r: Outcome<WaitError>)
      requires base.screen.Valid()
      modifies base.screen
      ensures base.screen.Valid()
      ensures r == (if Found(old(base.screen.elements), fields.username) then Pass
                    else Fail(NoSuchElementException(fields.username)))
      ensures r.Fail? ==> base.screen.log == old(base.screen.log) && base.screen.elements == old(base.screen.elements)
      ensures r.Pass? ==>
        && base.screen.log == old(base.screen.log) + EnterTextTrace(fields.username, username)
        && base.screen.elements ==
             old(base.screen.elements)[fields.username := old(base.screen.elements)[fields.username].(text := username)]
    {
      r := base.EnterTextElement(fields.username, username);
    }

    /** enterPassword: enterText on the password field, which then holds exactly `password`. */
    method EnterPassword(password: string) returns (r: Outcome<WaitError>)
      requires base.screen.Valid()
      modifies base.screen
      ensures base.screen.Valid()
      ensures r == (if Found(old(base.screen.elements), fields.password) then Pass
                    else Fail(NoSuchElementException(fields.password)))
      ensures r.Fail? ==> base.screen.log == old(base.screen.log) && base.screen.elements == old(base.screen.elements)
      ensures r.Pass? ==>
        && base.screen.log == old(base.screen.log) + EnterTextTrace(fields.password, password)
        && base.screen.elements ==
             old(base.screen.elements)[fields.password := old(base.screen.elements)[fields.password].(text := password)]
    {
      r := base.EnterTextElement(fields.password, password);
    }

    /** clickLoginButton: one click on the login button and on nothing else. */
    method ClickLoginButton() returns (r: Outcome<WaitError>)
      requires base.screen.Valid()
      modifies base.screen
      ensures base.screen.Valid()
      ensures r == (if Found(old(base.screen.elements), fields.loginButton) then Pass
                    else Fail(NoSuchElementException(fields.loginButton)))
      ensures base.screen.log == old(base.screen.log) + (if r.Pass? then [Clicked(fields.loginButton)] else [])
      ensures base.screen.elements == old(base.screen.elements)
    {
      r := base.ClickElement(fields.loginButton);
    }

    /** getWelcomeMessage: the welcome element's text, unchanged. */
    method GetWelcomeMessage() returns (r: Result<string, WaitError>)
      ensures r.Success? <==> Found(base.screen.elements, fields.welcomeMessage)
      ensures r.Success? ==> r.value == base.screen.elements[fields.welcomeMessage].text
      ensures r.Failure? ==> r.error == NoSuchElementException(fields.welcomeMessage)
    {
      r := base.GetTextElement(fields.welcomeMessage);
    }

    /**
     * isWelcomeMessageDisplayed: the element overload of isDisplayed, so a
     * missing welcome message is a NoSuchElementException, not false.
     */
    method IsWelcomeMessageDisplayed() returns (r: Result<bool, WaitError>)
      ensures r.Success? <==> Found(base.screen.elements, fields.welcomeMessage)
      ensures r.Success? ==> r.value == base.screen.elements[fields.welcomeMessage].displayed
      ensures r.Failure? ==> r.error == NoSuchElementException(fields.welcomeMessage)
    {
      r := base.IsDisplayedElement(fields.welcomeMessage);
    }

    /**
     * scrollToElement: only the cast of the page's driver to AndroidDriver, which
     * throws when the page holds a driver of the other platform; a null
     * driver casts without error. The element is not touched.
     */
    method ScrollToElement(element: Locator) returns (r: Outcome<WaitError>)
      ensures r.Fail? <==> base.driver.Some? && base.driver.value.platform != Android
      ensures r.Fail? ==> r.error == ClassCastException
    {
      if base.driver.Some? && base.driver.value.platform != Android {
        return Fail(ClassCastException);
      }
      return Pass;
    }

    /**
     * performLogin: enterUsername, enterPassword, clickLoginButton in that
     * order, stopping at the first failure.
     */
    method PerformLogin(username: string, password: string) returns (r: Outcome<WaitError>)
      requires base.screen.Valid()
      modifies base.screen
      ensures base.screen.Valid()
      ensures r == LoginOutcome(old(base.screen.elements), fields)
      ensures base.screen.log == old(base.screen.log) + LoginPerformed(old(base.screen.elements), fields, username, password)
      ensures !Found(old(base.screen.elements), fields.username) ==> base.screen.elements == old(base.screen.elements)
      ensures Found(old(base.screen.elements), fields.username) && !Found(old(base.screen.elements), fields.password) ==>
        base.screen.elements ==
          old(base.screen.elements)[fields.username := old(base.screen.elements)[fields.username].(text := username)]
      ensures Found(old(base.screen.elements), fields.username) && Found(old(base.screen.elements), fields.password) ==>
        base.screen.elements == LoggedIn(old(base.screen.elements), fields, username, password)
      ensures r.Pass? ==> base.screen.elements == Replay(old(base.screen.elements), LoginTrace(fields, username, password))
    {
      ghost var before := base.screen.elements;
      LoginPerformedCases(before, fields, username, password);
      if Found(before, fields.username) && Found(before, fields.password) {
        LoginEffect(before, fields, username, password);
      }
      r := EnterUsername(username);
      if r.Fail? {
        return;
      }
      FoundAfterTyping(before, fields.username, username, fields.password);
      FoundAfterTyping(before, fields.username, username, fields.loginButton);
      ghost var afterUsername := base.screen.elements;
      r := EnterPassword(password);
      if r.Fail? {
        return;
      }
      FoundAfterTyping(afterUsername, fields.password, password, fields.loginButton);
      r := ClickLoginButton();
    }
  }

  /** SampleIOSPage: the login page with iOS locators. */
  class SampleIOSPage {
    const base: BasePage
    /** The page's four fields, located by the iOS ids. */
    const fields: LoginFields

    constructor (base: BasePage)
      ensures this.base == base && fields == IOS_FIELDS
    {
      this.base := base;
      fields := IOS_FIELDS;
    }

    /** enterUsername: enterText on the username field, which then holds exactly `username`. */
    method EnterUsername(username: string) returns (r: Outcome<WaitError>)
      requires base.screen.Valid()
      modifies base.screen
      ensures base.screen.Valid()
      ensures r == (if Found(old(base.screen.elements), fields.username) then Pass
                    else Fail(NoSuchElementException(fields.username)))
      ensures r.Fail? ==> base.screen.log == old(base.screen.log) && base.screen.elements == old(base.screen.elements)
      ensures r.Pass? ==>
        && base.screen.log == old(base.screen.log) + EnterTextTrace(fields.username, username)
        && base.screen.elements ==
             old(base.screen.elements)[fields.username := old(base.screen.elements)[fields.username].(text := username)]
    {
      r := base.EnterTextElement(fields.username, username);
    }

    /** enterPassword: enterText on the password field, which then holds exactly `password`. */
    method EnterPassword(password: string) returns (r: Outcome<WaitError>)
      requires base.screen.Valid()
      modifies base.screen
      ensures base.screen.Valid()
      ensures r == (if Found(old(base.screen.elements), fields.password) then Pass
                    else Fail(NoSuchElementException(fields.password)))
      ensures r.Fail? ==> base.screen.log == old(base.screen.log) && base.screen.elements == old(base.screen.elements)
      ensures r.Pass? ==>
        && base.screen.log == old(base.screen.log) + EnterTextTrace(fields.password, password)
        && base.screen.elements ==
             old(base.screen.elements)[fields.password := old(base.screen.elements)[fields.password].(text := password)]
    {
      r := base.EnterTextElement(fields.password, password);
    }

    /** clickLoginButton: one click on the login button and on nothing else. */
    method ClickLoginButton() returns (r: Outcome<WaitError>)
      requires base.screen.Valid()
      modifies base.screen
      ensures base.screen.Valid()
      ensures r == (if Found(old(base.screen.elements), fields.loginButton) then Pass
                    else Fail(NoSuchElementException(fields.loginButton)))
      ensures base.screen.log == old(base.screen.log) + (if r.Pass? then [Clicked(fields.loginButton)] else [])
      ensures base.screen.elements == old(base.screen.elements)
    {
      r := base.ClickElement(fields.loginButton);
    }

    /** getWelcomeMessage: the welcome element's text, unchanged. */
    method GetWelcomeMessage() returns (r: Result<string, WaitError>)
      ensures r.Success? <==> Found(base.screen.elements, fields.welcomeMessage)
      ensures r.Success? ==> r.value == base.screen.elements[fields.welcomeMessage].text
      ensures r.Failure? ==> r.error == NoSuchElementException(fields.welcomeMessage)
    {
      r := base.GetTextElement(fields.welcomeMessage);
    }

    /**
     * isWelcomeMessageDisplayed: the element overload of isDisplayed, so a
     * missing welcome message is a NoSuchElementException, not false.
     */
    method IsWelcomeMessageDisplayed() returns (r: Result<bool, WaitError>)
      ensures r.Success? <==> Found(base.screen.elements, fields.welcomeMessage)
      ensures r.Success? ==> r.value == base.screen.elements[fields.welcomeMessage].displayed
      ensures r.Failure? ==> r.error == NoSuchElementException(fields.welcomeMessage)
    {
      r := base.IsDisplayedElement(fields.welcomeMessage);
    }

    /**
     * scrollToElement: only the cast of the page's driver to IOSDriver, which
     * throws when the page holds a driver of the other platform; a null
     * driver casts without error. The element is not touched.
     */
    method ScrollToElement(element: Locator) returns (r: Outcome<WaitError>)
      ensures r.Fail? <==> base.driver.Some? && base.driver.value.platform != IOS
      ensures r.Fail? ==> r.error == ClassCastException
    {
      if base.driver.Some? && base.driver.value.platform != IOS {
        return Fail(ClassCastException);
      }
      return Pass;
    }

    /**
     * performLogin: enterUsername, enterPassword, clickLoginButton in that
     * order, stopping at the first failure.
     */
    method PerformLogin(username: string, password: string) returns (r: Outcome<WaitError>)
      requires base.screen.Valid()
      modifies base.screen
      ensures base.screen.Valid()
      ensures r == LoginOutcome(old(base.screen.elements), fields)
      ensures base.screen.log == old(base.screen.log) + LoginPerformed(old(base.screen.elements), fields, username, password)
      ensures !Found(old(base.screen.elements), fields.username) ==> base.screen.elements == old(base.screen.elements)
      ensures Found(old(base.screen.elements), fields.username) && !Found(old(base.screen.elements), fields.password) ==>
        base.screen.elements ==
          old(base.screen.elements)[fields.username := old(base.screen.elements)[fields.username].(text := username)]
      ensures Found(old(base.screen.elements), fields.username) && Found(old(base.screen.elements), fields.password) ==>
        base.screen.elements == LoggedIn(old(base.screen.elements), fields, username, password)
      ensures r.Pass? ==> base.screen.elements == Replay(old(base.screen.elements), LoginTrace(fields, username, password))
    {
      ghost var before := base.screen.elements;
      LoginPerformedCases(before, fields, username, password);
      if Found(before, fields.username) && Found(before, fields.password) {
        LoginEffect(before, fields, username, password);
      }
      r := EnterUsername(username);
      if r.Fail? {
        return;
      }
      FoundAfterTyping(before, fields.username, username, fields.password);
      FoundAfterTyping(before, fields.username, username, fields.loginButton);
      ghost var afterUsername := base.screen.elements;
      r := EnterPassword(password);
      if r.Fail? {
        return;
      }
      FoundAfterTyping(afterUsername, fields.password, password, fields.loginButton);
      r := ClickLoginButton();
    }
  }
}
