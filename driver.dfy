/** The browser as the helpers see it: every webdriver call they make is an
    action appended to a recorded trace, and the text an element shows is an
    uninterpreted function of the actions performed so far. */
module Driver {

  /** The selector handed to the UI-automation framework; `Undefined` is the
      JavaScript `undefined` passed when no selector was ever built. */
  datatype Locator = XPath(path: string) | Undefined

  datatype Action =
    | Click(target: Locator)
    | Type(target: Locator, text: string)
    | CompareText(expected: string, target: Locator)
    | ReadText(target: Locator)
    | Get(url: string)

  class Browser {
    /** The text the element at a locator shows, after the given actions. */
    const render: (seq<Action>, Locator) -> string
    var trace: seq<Action>

    constructor (render: (seq<Action>, Locator) -> string)
      ensures this.render == render && trace == []
    {
      this.render := render;
      trace := [];
    }

    /** `clickElementByxpath` / `element.click()`. */
    method ClickElement(target: Locator)
      modifies this
      ensures trace == old(trace) + [Click(target)]
    {
      trace := trace + [Click(target)];
    }

    /** `enterTextIntoFieldByxpath`. */
    method EnterText(target: Locator, text: string)
      modifies this
      ensures trace == old(trace) + [Type(target, text)]
    {
      trace := trace + [Type(target, text)];
    }

    /** `expect(expected).to.equal(await getValue(driver, target))`: strict
        string equality with the element's text. */
    method ExpectText(expected: string, target: Locator) returns (ok: bool)
      modifies this
      ensures ok <==> expected == render(old(trace), target)
      ensures trace == old(trace) + [CompareText(expected, target)]
    {
      ok := expected == render(trace, target);
      trace := trace + [CompareText(expected, target)];
    }

    /** `(await getElement(driver, target)).getText()`. */
    method GetText(target: Locator) returns (text: string)
      modifies this
      ensures text == render(old(trace), target)
      ensures trace == old(trace) + [ReadText(target)]
    {
      text := render(trace, target);
      trace := trace + [ReadText(target)];
    }

    /** `driver.get(url)` / `goToUrl(driver, url)`. */
    method Navigate(url: string)
      modifies this
      ensures trace == old(trace) + [Get(url)]
    {
      trace := trace + [Get(url)];
    }
  }
}
