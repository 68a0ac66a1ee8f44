/**
 * Content of the error page (blockForge-ui/components/ErrorPage/ErrorPage.tsx):
 * prop defaults, the title and message fallback chains over the default
 * tables, and the choice made by the back button. Rendering is left to the
 * UI library; the page is modelled as the content it shows.
 */
module ErrorPage {
  import opened Wrappers
  import JsKeys

  /** `errorCode?: number | string`; numbers are modelled as integers. */
  datatype ErrorCode = Num(n: int) | Str(s: string)

  /** The identity of a caller-supplied `onBack` callback. */
  datatype Handler = Handler(name: string)

  /** Properties of the page; `None` is an omitted (undefined) property. */
  datatype ErrorPageProps = ErrorPageProps(
    errorCode: Option<ErrorCode>,
    title: Option<string>,
    message: Option<string>,
    showBackButton: Option<bool>,
    backButtonText: Option<string>,
    onBack: Option<Handler>)

  /** What a click on the back button does: call `onBack`, or navigate to a path. */
  datatype BackAction = CallOnBack(handler: Handler) | NavigateTo(path: string)

  datatype BackButton = BackButton(text: string, onClick: BackAction)

  /** What the page shows: the code, the title, the message and, maybe, the back button. */
  datatype ErrorPageView = ErrorPageView(code: ErrorCode, title: string, message: string, backButton: Option<BackButton>)

  const DefaultCode := Num(404)
  const DefaultBackButtonText := "Retour à l'accueil"
  const GenericTitle := "Une erreur s'est produite"
  const GenericMessage := "Une erreur inattendue s'est produite."
  const HomePath := "/"

  const DefaultTitles: map<string, string> := map[
    "404" := "Page non trouvée",
    "500" := "Erreur serveur",
    "403" := "Accès refusé",
    "401" := "Non autorisé"]

  const DefaultMessages: map<string, string> := map[
    "404" := "La page que vous recherchez n'existe pas ou a été déplacée.",
    "500" := "Une erreur interne s'est produite. Veuillez réessayer plus tard.",
    "403" := "Vous n'avez pas les permissions nécessaires pour accéder à cette ressource.",
    "401" := "Vous devez être connecté pour accéder à cette page."]

  /** The property key under which a code indexes a record. */
  function Key(code: ErrorCode): (k: string)
    ensures code.Str? ==> k == code.s
    ensures code.Num? ==> JsKeys.IsNumeral(k) && JsKeys.ParseDecimal(k) == code.n
  {
    match code
    case Num(n) => JsKeys.DecimalRoundTrip(n); JsKeys.IntToDecimal(n)
    case Str(s) => s
  }

  /** JavaScript truthiness of an optional string: undefined and "" are falsy. */
  predicate Truthy(s: Option<string>) {
    s.Some? && s.value != ""
  }

  /** `a || b` where `b` is a string. */
  function Or(a: Option<string>, b: string): string {
    if Truthy(a) then a.value else b
  }

  /** Reads an own entry of a record; a missing key reads as undefined. */
  function Lookup(table: map<string, string>, key: string): Option<string> {
    if key in table then Some(table[key]) else None
  }

  /**
   * `given || table[key] || fallback`: a truthy given value wins, then a
   * non-empty table entry, then the fallback.
   */
  function FallbackChain(given: Option<string>, table: map<string, string>, key: string, fallback: string): (r: string)
    ensures Truthy(given) ==> r == given.value
    ensures !Truthy(given) && key in table && table[key] != "" ==> r == table[key]
    ensures !Truthy(given) && !(key in table && table[key] != "") ==> r == fallback
    ensures fallback != "" ==> r != ""
  {
    Or(given, Or(Lookup(table, key), fallback))
  }

  function ErrorTitle(code: ErrorCode, title: Option<string>): (r: string)
    ensures r != ""
  {
    FallbackChain(title, DefaultTitles, Key(code), GenericTitle)
  }

  function ErrorMessage(code: ErrorCode, message: Option<string>): (r: string)
    ensures r != ""
  {
    FallbackChain(message, DefaultMessages, Key(code), GenericMessage)
  }

  /** `handleBack`: the caller's callback when there is one, otherwise navigation home. */
  function HandleBack(onBack: Option<Handler>): (a: BackAction)
    ensures a.CallOnBack? <==> onBack.Some?
    ensures onBack.Some? ==> a.handler == onBack.value
    ensures a.NavigateTo? ==> a.path == HomePath
  {
    match onBack
    case Some(h) => CallOnBack(h)
    case None => NavigateTo(HomePath)
  }

  /** The page the component renders for the given properties. */
  function Render(props: ErrorPageProps): (v: ErrorPageView)
    ensures props.errorCode.Some? ==> v.code == props.errorCode.value
    ensures props.errorCode.None? ==> v.code == Num(404)
    ensures v.title == ErrorTitle(v.code, props.title) && v.message == ErrorMessage(v.code, props.message)
    ensures v.backButton.Some? <==> props.showBackButton != Some(false)
    ensures v.backButton.Some? ==> v.backButton.value.onClick == HandleBack(props.onBack)
    ensures v.backButton.Some? ==>
      v.backButton.value.text == (if props.backButtonText.Some? then props.backButtonText.value else DefaultBackButtonText)
  {
    var code := if props.errorCode.Some? then props.errorCode.value else DefaultCode;
    var show := if props.showBackButton.Some? then props.showBackButton.value else true;
    var text := if props.backButtonText.Some? then props.backButtonText.value else DefaultBackButtonText;
    ErrorPageView(
      code,
      FallbackChain(props.title, DefaultTitles, Key(code), GenericTitle),
      FallbackChain(props.message, DefaultMessages, Key(code), GenericMessage),
      if show then Some(BackButton(text, HandleBack(props.onBack))) else None)
  }

  /** With no properties at all: code 404, its page-not-found texts, and a back button home. */
  lemma RenderDefaults()
    ensures Render(ErrorPageProps(None, None, None, None, None, None)) ==
      ErrorPageView(Num(404), "Page non trouvée", "La page que vous recherchez n'existe pas ou a été déplacée.",
                    Some(BackButton("Retour à l'accueil", NavigateTo("/"))))
  {
    assert JsKeys.IntToDecimal(404) == "404";
  }

  /**
   * Defaults replace only omitted properties: an explicit empty button text
   * is kept, while an empty title or message is passed over like an omitted one.
   */
  lemma DefaultsOnlyForUndefined(props: ErrorPageProps)
    requires props.showBackButton.None? && props.backButtonText == Some("")
    ensures Render(props).backButton.Some? && Render(props).backButton.value.text == ""
    ensures Render(props.(title := Some(""), message := Some(""))) == Render(props.(title := None, message := None))
  {
  }

  /** The four integers the tables know are exactly 401, 403, 404 and 500. */
  lemma KnownNumericKeys(n: int)
    ensures Key(Num(n)) in DefaultTitles <==> n in {401, 403, 404, 500}
    ensures Key(Num(n)) in DefaultMessages <==> n in {401, 403, 404, 500}
  {
    assert JsKeys.IntToDecimal(401) == "401";
    assert JsKeys.IntToDecimal(403) == "403";
    assert JsKeys.IntToDecimal(404) == "404";
    assert JsKeys.IntToDecimal(500) == "500";
    JsKeys.DecimalInjective(n, 401);
    JsKeys.DecimalInjective(n, 403);
    JsKeys.DecimalInjective(n, 404);
    JsKeys.DecimalInjective(n, 500);
  }

  /** A numeric code outside {401, 403, 404, 500} gets the generic title and message unless explicit ones are given. */
  lemma UnknownNumericCodeIsGeneric(n: int, title: Option<string>, message: Option<string>)
    requires n !in {401, 403, 404, 500}
    ensures ErrorTitle(Num(n), title) == if Truthy(title) then title.value else GenericTitle
    ensures ErrorMessage(Num(n), message) == if Truthy(message) then message.value else GenericMessage
  {
    KnownNumericKeys(n);
  }

  /** A known code selects the same defaults written as a number or as its decimal string. */
  lemma StringFormSelectsSameDefaults(n: int, title: Option<string>, message: Option<string>)
    requires n in {401, 403, 404, 500}
    ensures var s := if n == 401 then "401" else if n == 403 then "403" else if n == 404 then "404" else "500";
      && ErrorTitle(Num(n), title) == ErrorTitle(Str(s), title)
      && ErrorMessage(Num(n), message) == ErrorMessage(Str(s), message)
      && (!Truthy(title) ==> ErrorTitle(Num(n), title) == DefaultTitles[s])
      && (!Truthy(message) ==> ErrorMessage(Num(n), message) == DefaultMessages[s])
  {
    assert JsKeys.IntToDecimal(401) == "401";
    assert JsKeys.IntToDecimal(403) == "403";
    assert JsKeys.IntToDecimal(404) == "404";
    assert JsKeys.IntToDecimal(500) == "500";
  }

  // ---------------------------------------------------------------------
  // The lookup as written. `defaultTitles[errorCode]` indexes an object
  // literal, which also has the members it inherits from Object.prototype.
  // ---------------------------------------------------------------------

  /** Names every object literal inherits from Object.prototype; each reads as a truthy non-string value. */
  const PrototypeMembers: set<string> := {
    "constructor", "hasOwnProperty", "isPrototypeOf", "propertyIsEnumerable",
    "toLocaleString", "toString", "valueOf", "__proto__",
    "__defineGetter__", "__defineSetter__", "__lookupGetter__", "__lookupSetter__"}

  /** A value the fallback chain can produce in JavaScript: a string, or an inherited function or object. */
  datatype JsValue = Text(text: string) | Inherited(name: string)

  /** `table[key]` on an object literal: its own entry first, then the inherited member, else undefined. */
  function JsIndex(table: map<string, string>, key: string): (r: Option<JsValue>)
    ensures key in table ==> r == Some(Text(table[key]))
    ensures key !in table ==> (r.Some? <==> key in PrototypeMembers)
    ensures key !in table && r.Some? ==> r.value == Inherited(key)
  {
    if key in table then Some(Text(table[key]))
    else if key in PrototypeMembers then Some(Inherited(key))
    else None
  }

  /** `given || table[key] || fallback` with the inherited members included. */
  function FallbackChainAsWritten(given: Option<string>, table: map<string, string>, key: string, fallback: string): (r: JsValue)
    ensures key !in PrototypeMembers ==> r == Text(FallbackChain(given, table, key, fallback))
  {
    if Truthy(given) then Text(given.value)
    else match JsIndex(table, key)
      case Some(Text(s)) => if s != "" then Text(s) else Text(fallback)
      case Some(Inherited(name)) => Inherited(name)
      case None => Text(fallback)
  }

  /** `title || defaultTitles[errorCode] || "Une erreur s'est produite"` as written. */
  function ErrorTitleAsWritten(code: ErrorCode, title: Option<string>): (r: JsValue)
    ensures Truthy(title) ==> r == Text(title.value)
    ensures !Truthy(title) && code.Str? && code.s in PrototypeMembers ==> r == Inherited(code.s)
  {
    FallbackChainAsWritten(title, DefaultTitles, Key(code), GenericTitle)
  }

  /** `message || defaultMessages[errorCode] || "Une erreur inattendue s'est produite."` as written. */
  function ErrorMessageAsWritten(code: ErrorCode, message: Option<string>): (r: JsValue)
    ensures Truthy(message) ==> r == Text(message.value)
    ensures !Truthy(message) && code.Str? && code.s in PrototypeMembers ==> r == Inherited(code.s)
  {
    FallbackChainAsWritten(message, DefaultMessages, Key(code), GenericMessage)
  }

  /**
   * Any inherited name as the code ("toString" gives a function,
   * "__proto__" an object) makes the title and message non-strings when no
   * truthy explicit ones are given, where the generic texts were meant.
   */
  lemma PrototypeCodeYieldsNonText(name: string, title: Option<string>, message: Option<string>)
    requires name in PrototypeMembers && !Truthy(title) && !Truthy(message)
    ensures ErrorTitleAsWritten(Str(name), title) == Inherited(name) != Text(ErrorTitle(Str(name), title))
    ensures ErrorMessageAsWritten(Str(name), message) == Inherited(name) != Text(ErrorMessage(Str(name), message))
    ensures ErrorTitle(Str(name), title) == GenericTitle && ErrorMessage(Str(name), message) == GenericMessage
  {
  }

  /** Away from the inherited names, and for every numeric code, the code as written agrees with the own-entry lookup. */
  lemma AsWrittenAgreesOffPrototype(code: ErrorCode, title: Option<string>, message: Option<string>)
    requires code.Num? || code.s !in PrototypeMembers
    ensures ErrorTitleAsWritten(code, title) == Text(ErrorTitle(code, title))
    ensures ErrorMessageAsWritten(code, message) == Text(ErrorMessage(code, message))
  {
    if code.Num? {
      JsKeys.DecimalShape(code.n);
      var k := Key(code);
      forall m | m in PrototypeMembers ensures k != m {
        assert !JsKeys.IsDigit(m[0]) && m[0] != '-';
      }
    }
  }
}
