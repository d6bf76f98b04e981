/**
 * WaitUtils as the pages use it: a wait for a condition on the element a
 * locator finds, which either returns that element or times out. The
 * WebDriverWait polling itself is abstracted by each element's readyAfter.
 */
module Waits {
  import opened Wrappers
  import opened JavaText
  import opened Config
  import opened Ui

  /** The ExpectedConditions the framework waits for, and the page-factory lookup. */
  datatype Condition =
    | Present    // the field proxies' findElement, retried for the lookup timeout
    | Visible    // visibilityOfElementLocated
    | Clickable  // elementToBeClickable: visible and enabled

  /** Why a page action fails. */
  datatype WaitError =
    | TimeoutException(condition: Condition, locator: Locator, seconds: int)
    | NoSuchElementException(locator: Locator)
    | ClassCastException

  const EXPLICIT_WAIT_KEY: string := "explicit.wait"
  const DEFAULT_EXPLICIT_WAIT: string := "20"

  /** DEFAULT_TIMEOUT: explicit.wait parsed as an int, 20 when unset; None when parseInt throws. */
  function DefaultTimeout(props: Properties): (r: Option<int>)
    ensures EXPLICIT_WAIT_KEY !in props ==> r == Some(20)
    ensures EXPLICIT_WAIT_KEY in props ==> r == ParseInt(props[EXPLICIT_WAIT_KEY])
  {
    assert Decimal(20) == DEFAULT_EXPLICIT_WAIT;
    ParseIntDecimal(20);
    ParseInt(GetPropertyOr(props, EXPLICIT_WAIT_KEY, DEFAULT_EXPLICIT_WAIT))
  }

  /** Whether an element in this state meets the condition. */
  predicate Satisfies(e: Element, c: Condition) {
    match c
    case Present => true
    case Visible => e.displayed
    case Clickable => e.displayed && e.enabled
  }

  /**
   * How long wait.until keeps polling: the timeout, or no time at all when
   * it is zero or negative, since the condition is still evaluated once
   * before the deadline is compared.
   */
  function PollingTime(seconds: int): (t: nat)
    ensures seconds >= 0 ==> t == seconds
    ensures seconds < 0 ==> t == 0
  {
    if seconds < 0 then 0 else seconds
  }

  /**
   * wait.until(condition) for `seconds` seconds: the element when the locator
   * finds one that meets the condition within the time, else the timeout.
   */
  function WaitFor(elements: Elements, c: Condition, l: Locator, seconds: int): (r: Result<Element, WaitError>)
    ensures r.Success? <==> l in elements && Satisfies(elements[l], c) && elements[l].readyAfter <= PollingTime(seconds)
    ensures seconds <= 0 ==> (r.Success? <==> l in elements && Satisfies(elements[l], c) && elements[l].readyAfter == 0)
    ensures r.Success? ==> r.value == elements[l]
    ensures r.Failure? ==> r.error == TimeoutException(c, l, seconds)
  {
    if l in elements && Satisfies(elements[l], c) && elements[l].readyAfter <= PollingTime(seconds)
    then Success(elements[l])
    else Failure(TimeoutException(c, l, seconds))
  }

  /** A wait that succeeds keeps succeeding, with the same element, when given longer. */
  lemma WaitMonotone(elements: Elements, c: Condition, l: Locator, seconds: int, longer: int)
    requires seconds <= longer
    requires WaitFor(elements, c, l, seconds).Success?
    ensures WaitFor(elements, c, l, longer) == WaitFor(elements, c, l, seconds)
  {
  }

  /** Clickable is stronger than visible, which is stronger than present. */
  lemma ConditionsNested(elements: Elements, l: Locator, seconds: int)
    ensures WaitFor(elements, Clickable, l, seconds).Success? ==> WaitFor(elements, Visible, l, seconds).Success?
    ensures WaitFor(elements, Visible, l, seconds).Success? ==> WaitFor(elements, Present, l, seconds).Success?
  {
  }
}
