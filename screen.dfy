/**
 * The application screen behind an Appium session, seen abstractly: the
 * elements a locator finds, each with its text and its visibility and
 * enabled flags, and the log of what happened to it: the framework's
 * element calls, and the screens the application itself rendered in
 * between (navigation, elements appearing or going away).
 */
module Ui {

  /** The By strategies the pages use. */
  datatype Strategy = Id | AccessibilityId | XPath | ClassName

  /** A By locator. */
  datatype Locator = By(strategy: Strategy, value: string)

  /**
   * What the session reports for the element a locator finds. readyAfter is
   * the number of seconds, counted from the start of a wait, after which the
   * element is in this state; it abstracts the remote polling.
   */
  datatype Element = Element(text: string, displayed: bool, enabled: bool, readyAfter: nat)

  type Elements = map<Locator, Element>

  /**
   * What changes the screen: the element calls clear(), sendKeys(keys) and
   * click(), and the application's own response, a newly rendered screen.
   */
  datatype Action =
    | Cleared(target: Locator)
    | Typed(target: Locator, keys: string)
    | Clicked(target: Locator)
    | Rendered(next: Elements)

  /**
   * The effect of one action. clear() empties the text and sendKeys appends
   * to it; what a click() triggers is not its own effect but whatever the
   * application renders next. A call on a locator that finds nothing changes
   * nothing. A rendered screen replaces the old one.
   */
  function Step(elements: Elements, a: Action): (r: Elements)
    ensures a.Rendered? ==> r == a.next
    ensures !a.Rendered? ==> r.Keys == elements.Keys
    ensures !a.Rendered? ==> forall l :: l in r && l != a.target ==> r[l] == elements[l]
  {
    if a.Rendered? then a.next
    else if a.target !in elements then elements
    else
      var e := elements[a.target];
      match a
      case Cleared(l) => elements[l := e.(text := "")]
      case Typed(l, keys) => elements[l := e.(text := e.text + keys)]
      case Clicked(_) => elements
      case Rendered(next) => next
  }

  /** A log made only of the framework's own element calls, with no response of the application. */
  predicate ElementCalls(log: seq<Action>) {
    forall i :: 0 <= i < |log| ==> !log[i].Rendered?
  }

  /** The screen reached from `start` by performing the actions of `log` in order. */
  function Replay(start: Elements, log: seq<Action>): Elements
    decreases |log|
  {
    if log == [] then start
    else Step(Replay(start, log[..|log| - 1]), log[|log| - 1])
  }

  /** Replaying a log one action longer is one more step. */
  lemma ReplaySnoc(start: Elements, log: seq<Action>, a: Action)
    ensures Replay(start, log + [a]) == Step(Replay(start, log), a)
  {
    assert (log + [a])[..|log + [a]| - 1] == log;
  }

  /** Replaying two logs one after the other is replaying their concatenation. */
  lemma {:induction false} ReplayAppend(start: Elements, log1: seq<Action>, log2: seq<Action>)
    ensures Replay(start, log1 + log2) == Replay(Replay(start, log1), log2)
    decreases |log2|
  {
    if log2 == [] {
      assert log1 + log2 == log1;
    } else {
      var init := log2[..|log2| - 1];
      var last := log2[|log2| - 1];
      assert log2 == init + [last];
      assert log1 + log2 == (log1 + init) + [last];
      ReplaySnoc(start, log1 + init, last);
      ReplayAppend(start, log1, init);
      ReplaySnoc(Replay(start, log1), init, last);
    }
  }

  /**
   * The framework's element calls on their own never add or remove an
   * element, or change its flags or timing: only the application does.
   */
  lemma {:induction false} ReplayKeepsLayout(start: Elements, log: seq<Action>)
    requires ElementCalls(log)
    ensures Replay(start, log).Keys == start.Keys
    ensures forall l :: l in start ==>
      && Replay(start, log)[l].displayed == start[l].displayed
      && Replay(start, log)[l].enabled == start[l].enabled
      && Replay(start, log)[l].readyAfter == start[l].readyAfter
    decreases |log|
  {
    if log != [] {
      ReplayKeepsLayout(start, log[..|log| - 1]);
    }
  }

  /** clear() followed by sendKeys(text): the element's text is exactly `text`, nothing else changes. */
  lemma EnterTextResult(elements: Elements, l: Locator, text: string)
    requires l in elements
    ensures Replay(elements, [Cleared(l), Typed(l, text)]) == elements[l := elements[l].(text := text)]
  {
    var cleared := elements[l := elements[l].(text := "")];
    ReplaySnoc(elements, [], Cleared(l));
    assert [] + [Cleared(l)] == [Cleared(l)];
    assert Replay(elements, [Cleared(l)]) == cleared;
    ReplaySnoc(elements, [Cleared(l)], Typed(l, text));
    assert [Cleared(l)] + [Typed(l, text)] == [Cleared(l), Typed(l, text)];
    assert "" + text == text;
  }

  /** The locators an action log clicked, in order. */
  function Clicks(log: seq<Action>): (r: seq<Locator>)
    ensures |r| <= |log|
  {
    if log == [] then []
    else Clicks(log[..|log| - 1]) + (if log[|log| - 1].Clicked? then [log[|log| - 1].target] else [])
  }

  /** Clicks of a concatenation. */
  lemma {:induction false} ClicksAppend(log1: seq<Action>, log2: seq<Action>)
    ensures Clicks(log1 + log2) == Clicks(log1) + Clicks(log2)
    decreases |log2|
  {
    if log2 == [] {
      assert log1 + log2 == log1;
    } else {
      var init := log2[..|log2| - 1];
      assert (log1 + log2)[..|log1 + log2| - 1] == log1 + init;
      ClicksAppend(log1, init);
    }
  }

  /**
   * The screen of the current session. `initial` is the screen as the
   * session started; every state-changing element call and every response
   * of the application appends to `log`, and the elements are always the
   * initial screen with the log replayed.
   */
  class Screen {
    var elements: Elements
    var log: seq<Action>
    ghost const initial: Elements

    ghost predicate Valid()
      reads this
    {
      elements == Replay(initial, log)
    }

    constructor (elements: Elements)
      ensures this.elements == elements && log == [] && initial == elements
      ensures Valid()
    {
      this.elements := elements;
      log := [];
      initial := elements;
    }

    /** Performs one element action on the session. */
    method Perform(a: Action)
      requires Valid()
      modifies this
      ensures Valid()
      ensures log == old(log) + [a]
      ensures elements == Step(old(elements), a)
    {
      ReplaySnoc(initial, log, a);
      log := log + [a];
      elements := Step(elements, a);
    }

    /** WebElement.clear() on the element `target` finds. */
    method Clear(target: Locator)
      requires Valid()
      modifies this
      ensures Valid()
      ensures log == old(log) + [Cleared(target)]
      ensures elements == Step(old(elements), Cleared(target))
    {
      Perform(Cleared(target));
    }

    /** WebElement.sendKeys(keys). */
    method SendKeys(target: Locator, keys: string)
      requires Valid()
      modifies this
      ensures Valid()
      ensures log == old(log) + [Typed(target, keys)]
      ensures elements == Step(old(elements), Typed(target, keys))
    {
      Perform(Typed(target, keys));
    }

    /**
     * The application responds on its own and renders `next`: a new page
     * after a click, an element that appears or goes away.
     */
    method Respond(next: Elements)
      requires Valid()
      modifies this
      ensures Valid()
      ensures log == old(log) + [Rendered(next)]
      ensures elements == next
    {
      Perform(Rendered(next));
    }

    /** WebElement.click(). */
    method Click(target: Locator)
      requires Valid()
      modifies this
      ensures Valid()
      ensures log == old(log) + [Clicked(target)]
      ensures elements == old(elements)
    {
      Perform(Clicked(target));
    }
  }
}
