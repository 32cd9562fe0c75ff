/** The generic error page: a configuration (code, title, message, icon, colour) chosen by the
    `type` query parameter from a fixed table, texts overridable by the `title` and `message`
    parameters, colour-dependent class strings, and the SEO values the page passes on. */
module GenericError {
  import opened Wrappers
  import opened Strings
  import SeoService

  /** The query parameters of the current route: a parameter is present with a value, or absent. */
  type QueryParams = map<string, string>

  /** `queryParamMap.get(key)`: the value, or `null`. */
  function Get(params: QueryParams, key: string): (r: Option<string>)
    ensures r.Some? <==> key in params
    ensures r.Some? ==> r.value == params[key]
  {
    if key in params then Some(params[key]) else None
  }

  /** `a || b` for an optional string: `b` when `a` is `null` or "". */
  function OrElse(a: Option<string>, b: string): (r: string)
    ensures a.Some? && a.value != "" ==> r == a.value
    ensures a.None? || a.value == "" ==> r == b
  {
    if a.Some? && a.value != "" then a.value else b
  }

  /** One entry of the configuration table. */
  datatype ErrorConfig = ErrorConfig(code: string, title: string, message: string, icon: string, color: string)

  /** The colours the class tables know. */
  predicate ValidColor(color: string) {
    color == "red" || color == "orange" || color == "blue"
  }

  /** The entries of the table, by key. */
  datatype ErrorKind =
    | E400 | E401 | E403 | E404 | E408 | E429 | E500 | E502 | E503 | E504 | Network | Generic

  /** The key of an entry in the table. */
  function KeyOf(kind: ErrorKind): string {
    match kind
    case E400 => "400" case E401 => "401" case E403 => "403" case E404 => "404"
    case E408 => "408" case E429 => "429" case E500 => "500" case E502 => "502"
    case E503 => "503" case E504 => "504" case Network => "network" case Generic => "generic"
  }

  /** The entry an own key of the table names, `None` for any other string. */
  function KindOf(key: string): (r: Option<ErrorKind>)
    ensures r.Some? ==> KeyOf(r.value) == key
  {
    if key == "400" then Some(E400) else if key == "401" then Some(E401)
    else if key == "403" then Some(E403) else if key == "404" then Some(E404)
    else if key == "408" then Some(E408) else if key == "429" then Some(E429)
    else if key == "500" then Some(E500) else if key == "502" then Some(E502)
    else if key == "503" then Some(E503) else if key == "504" then Some(E504)
    else if key == "network" then Some(Network) else if key == "generic" then Some(Generic)
    else None
  }

  /** Every key of the table is found by its name. */
  lemma KindOfKey(kind: ErrorKind)
    ensures KindOf(KeyOf(kind)) == Some(kind)
  {
  }

  /** The table's entry for a kind, field by field. */
  function Config(kind: ErrorKind): (c: ErrorConfig)
    ensures c.code == Code(kind) && c.title == Title(kind) && c.message == Message(kind)
    ensures c.icon == Icon(kind) && c.color == Color(kind)
  {
    ErrorConfig(Code(kind), Title(kind), Message(kind), Icon(kind), Color(kind))
  }

  function Code(kind: ErrorKind): string {
    if kind == Network || kind == Generic then "" else KeyOf(kind)
  }

  function Title(kind: ErrorKind): string {
    match kind
    case E400 => "Bad Request" case E401 => "Unauthorized" case E403 => "Access Denied"
    case E404 => "Page Not Found" case E408 => "Request Timeout" case E429 => "Too Many Requests"
    case E500 => "Internal Server Error" case E502 => "Bad Gateway" case E503 => "Service Unavailable"
    case E504 => "Gateway Timeout" case Network => "Network Error" case Generic => "Something went wrong"
  }

  function Message(kind: ErrorKind): string {
    match kind
    case E400 => "The request could not be processed due to invalid data."
    case E401 => "You need to be logged in to access this resource."
    case E403 => "You don't have permission to access this resource."
    case E404 => "The page you're looking for doesn't exist or has been moved."
    case E408 => "The request took too long to process. Please try again."
    case E429 => "You've made too many requests. Please wait a moment and try again."
    case E500 => "Something went wrong on our servers. We're working to fix this issue."
    case E502 => "The server received an invalid response. Please try again later."
    case E503 => "The service is temporarily unavailable. Please try again later."
    case E504 => "The request timed out. Please check your connection and try again."
    case Network => "Unable to connect to our servers. Please check your internet connection."
    case Generic => "An unexpected error occurred. Please try again or contact support."
  }

  function Icon(kind: ErrorKind): string {
    match kind
    case E403 | E500 | E502 | Generic => "error"
    case E404 => "info"
    case _ => "warning"
  }

  function Color(kind: ErrorKind): string {
    match kind
    case E403 | E500 | E502 | Generic => "red"
    case E404 => "blue"
    case _ => "orange"
  }

  /** Every entry has a colour the class tables know and a title; a status entry's code is its
      key, and the `network` and `generic` entries have no code. */
  lemma TableWellFormed(kind: ErrorKind)
    ensures ValidColor(Color(kind)) && |Title(kind)| > 0
    ensures kind != Network && kind != Generic ==> Code(kind) == KeyOf(kind)
    ensures kind == Network || kind == Generic ==> Code(kind) == ""
  {
  }

  /** The parameter accessors: `type` defaults to '500' (also when empty), a retry button is
      shown only for `retry=true`, and a contact link unless `contact=false`. */
  function ErrorType(params: QueryParams): (r: string)
    ensures "type" !in params ==> r == "500"
    ensures "type" in params && params["type"] != "" ==> r == params["type"]
    ensures r != ""
  {
    OrElse(Get(params, "type"), "500")
  }

  predicate ShowRetry(params: QueryParams) {
    Get(params, "retry") == Some("true")
  }

  predicate ShowContactSupport(params: QueryParams) {
    Get(params, "contact") != Some("false")
  }

  /** The retry button appears exactly for the value "true"; the contact link disappears exactly
      for the value "false". */
  lemma ParamFlags(params: QueryParams)
    ensures ShowRetry(params) <==> "retry" in params && params["retry"] == "true"
    ensures !ShowContactSupport(params) <==> "contact" in params && params["contact"] == "false"
  {
  }

  /** The entry the type selects: its own entry, or `generic` for a type the table lacks. */
  function BaseConfig(params: QueryParams): (c: ErrorConfig)
    ensures KindOf(ErrorType(params)).Some? ==> c == Config(KindOf(ErrorType(params)).value)
    ensures KindOf(ErrorType(params)).None? ==> c == Config(Generic)
  {
    var k := KindOf(ErrorType(params));
    Config(if k.Some? then k.value else Generic)
  }

  /** `errorConfig()`: the selected entry with a non-empty `title` or `message` parameter in
      place of its texts. */
  function ConfigOf(params: QueryParams): (c: ErrorConfig)
    ensures c.code == BaseConfig(params).code && c.icon == BaseConfig(params).icon
    ensures c.color == BaseConfig(params).color
    ensures c.title == OrElse(Get(params, "title"), BaseConfig(params).title)
    ensures c.message == OrElse(Get(params, "message"), BaseConfig(params).message)
  {
    var base := BaseConfig(params);
    base.(title := OrElse(Get(params, "title"), base.title),
          message := OrElse(Get(params, "message"), base.message))
  }

  /** Without a `type` parameter the page describes an internal server error. */
  lemma MissingTypeIsServerError(params: QueryParams)
    requires "type" !in params
    ensures ConfigOf(params).code == "500" && ConfigOf(params).color == "red"
  {
    assert ErrorType(params) == "500";
    assert KindOf("500") == Some(E500);
    assert BaseConfig(params) == Config(E500);
  }

  /** A type outside the table gives the generic entry's code, icon and colour. */
  lemma UnknownTypeIsGeneric(params: QueryParams)
    requires "type" in params && params["type"] != "" && KindOf(params["type"]).None?
    ensures ConfigOf(params).code == "" && ConfigOf(params).icon == "error" && ConfigOf(params).color == "red"
  {
  }

  /** The `title` and `message` parameters change only the texts: another request of the same
      type without them has the same code, icon and colour. */
  lemma OverridesOnlyTexts(params: QueryParams)
    ensures var plain := params - {"title", "message"};
      ConfigOf(params).code == ConfigOf(plain).code &&
      ConfigOf(params).icon == ConfigOf(plain).icon &&
      ConfigOf(params).color == ConfigOf(plain).color
  {
    var plain := params - {"title", "message"};
    assert |"type"| != |"title"| && |"type"| != |"message"|;
    assert Get(plain, "type") == Get(params, "type");
    assert BaseConfig(plain) == BaseConfig(params);
  }

  /** Whatever the parameters, the colour is one the class tables know, and the title is not empty. */
  lemma ConfigColorValid(params: QueryParams)
    ensures ValidColor(ConfigOf(params).color)
    ensures ConfigOf(params).title != ""
  {
    var k := KindOf(ErrorType(params));
    TableWellFormed(if k.Some? then k.value else Generic);
  }

  const IconBase := "mx-auto flex items-center justify-center h-24 w-24 rounded-full mb-8"
  const DetailsBase := "border rounded-md p-4 mb-8 text-left"

  /** The colours the class tables have rows for. */
  datatype Tone = Red | Orange | Blue

  /** The page's five `colorClasses` tables: the icon circle, the details box, and the details
      box's icon, title and text. */
  datatype ClassTable = IconTable | DetailsTable | DetailsIconTable | DetailsTitleTable | DetailsTextTable

  /** The row of the class tables for a colour, `None` for a colour they lack. */
  function ToneOf(color: string): (t: Option<Tone>)
    ensures t.Some? <==> ValidColor(color)
    ensures t == Some(Red) <==> color == "red"
  {
    if color == "red" then Some(Red)
    else if color == "orange" then Some(Orange)
    else if color == "blue" then Some(Blue)
    else None
  }

  /** The entry of a table for a colour it has. */
  function Row(table: ClassTable, tone: Tone): string {
    match table
    case IconTable =>
      (match tone
       case Red => "bg-red-100 dark:bg-red-900/20 text-red-600 dark:text-red-400"
       case Orange => "bg-orange-100 dark:bg-orange-900/20 text-orange-600 dark:text-orange-400"
       case Blue => "bg-blue-100 dark:bg-blue-900/20 text-blue-600 dark:text-blue-400")
    case DetailsTable =>
      (match tone
       case Red => "bg-red-50 dark:bg-red-900/10 border-red-200 dark:border-red-800"
       case Orange => "bg-orange-50 dark:bg-orange-900/10 border-orange-200 dark:border-orange-800"
       case Blue => "bg-blue-50 dark:bg-blue-900/10 border-blue-200 dark:border-blue-800")
    case DetailsIconTable =>
      (match tone
       case Red => "h-5 w-5 text-red-400"
       case Orange => "h-5 w-5 text-orange-400"
       case Blue => "h-5 w-5 text-blue-400")
    case DetailsTitleTable =>
      (match tone
       case Red => "text-sm font-medium text-red-800 dark:text-red-200"
       case Orange => "text-sm font-medium text-orange-800 dark:text-orange-200"
       case Blue => "text-sm font-medium text-blue-800 dark:text-blue-200")
    case DetailsTextTable =>
      (match tone
       case Red => "mt-2 text-sm text-red-700 dark:text-red-300"
       case Orange => "mt-2 text-sm text-orange-700 dark:text-orange-300"
       case Blue => "mt-2 text-sm text-blue-700 dark:text-blue-300")
  }

  /** `colorClasses[color]` of one table: the colour's entry, or `None` (`undefined`) for a
      colour the table lacks. `errorDetailsIconClasses()`, `errorDetailsTitleClasses()` and
      `errorDetailsTextClasses()` are this lookup on their own tables. */
  function ColorClasses(table: ClassTable, color: string): (r: Option<string>)
    ensures r.Some? <==> ValidColor(color)
  {
    match ToneOf(color)
    case Some(t) => Some(Row(table, t))
    case None => None
  }

  /** `errorIconClasses()`: the base classes and the colour's classes; `None` for a colour the
      table lacks. */
  function IconClasses(color: string): (r: Option<string>)
    ensures r.Some? <==> ValidColor(color)
    ensures r.Some? ==> StartsWith(r.value, IconBase + " ")
  {
    Joined(IconBase, ColorClasses(IconTable, color))
  }

  /** `errorDetailsClasses()`. */
  function DetailsClasses(color: string): (r: Option<string>)
    ensures r.Some? <==> ValidColor(color)
    ensures r.Some? ==> StartsWith(r.value, DetailsBase + " ")
  {
    Joined(DetailsBase, ColorClasses(DetailsTable, color))
  }

  /** Base classes, a space and the colour's classes, when the colour has classes. */
  function Joined(base: string, tail: Option<string>): (r: Option<string>)
    ensures r.Some? <==> tail.Some?
    ensures r.Some? ==> StartsWith(r.value, base + " ")
  {
    if tail.Some? then Some(base + " " + tail.value) else None
  }

  /** Every colour-dependent class lookup of the page is defined, whatever the parameters. */
  lemma ClassesDefined(params: QueryParams)
    ensures var color := ConfigOf(params).color;
      IconClasses(color).Some? && DetailsClasses(color).Some? &&
      forall table :: ColorClasses(table, color).Some?
  {
    ConfigColorValid(params);
  }

  /** The title `setupSEO` passes on: the code and a dash before the title when there is a code. */
  function SeoTitleOf(config: ErrorConfig): (r: string)
    ensures config.code != "" ==> StartsWith(r, config.code + " - ") && EndsWith(r, config.title)
    ensures config.code == "" ==> r == config.title
  {
    if config.code != "" then config.code + " - " + config.title else config.title
  }

  /** `setupSEO()`: the title, the message as description, and `noIndex`. */
  function SetupSeo(params: QueryParams): (d: SeoService.SeoData)
    ensures d.title == SeoTitleOf(ConfigOf(params)) && d.description == ConfigOf(params).message
    ensures d.noIndex
  {
    var config := ConfigOf(params);
    SeoService.SeoData(SeoTitleOf(config), config.message, SeoService.NoImage, "", "", "", true, "", "", "")
  }

  /** A status error's page title starts with its code; a network error's is just its title. */
  lemma SeoTitles(params: QueryParams)
    ensures var k := KindOf(ErrorType(params));
      k.Some? && k.value != Network && k.value != Generic ==>
        StartsWith(SetupSeo(params).title, ErrorType(params) + " - ")
    ensures KindOf(ErrorType(params)) == Some(Network) ==> SetupSeo(params).title == ConfigOf(params).title
  {
    var k := KindOf(ErrorType(params));
    if k.Some? {
      TableWellFormed(k.value);
    }
  }

  // The lookup as written: `errorConfigs[type]` on an object literal also finds the members every
  // object inherits, so a `type` naming one of them selects a function or the prototype object,
  // whose spread has none of the fields.

  /** The inherited member names of an object literal. */
  const InheritedKeys: set<string> := {"constructor", "__proto__", "hasOwnProperty", "isPrototypeOf",
    "propertyIsEnumerable", "toLocaleString", "toString", "valueOf", "__defineGetter__",
    "__defineSetter__", "__lookupGetter__", "__lookupSetter__"}

  /** The configuration as written, with `None` for a field that is `undefined`. */
  datatype RawConfig = RawConfig(code: Option<string>, title: Option<string>, message: Option<string>,
                                 icon: Option<string>, color: Option<string>)

  /** `undefined` as a template string shows it. */
  function Shown(s: Option<string>): string {
    if s.Some? then s.value else "undefined"
  }

  /** `errorConfig()` as written. */
  function ConfigAsWritten(params: QueryParams): (c: RawConfig)
    ensures ErrorType(params) !in InheritedKeys ==>
              var k := ConfigOf(params);
              c == RawConfig(Some(k.code), Some(k.title), Some(k.message), Some(k.icon), Some(k.color))
    ensures ErrorType(params) in InheritedKeys ==> c.code.None? && c.icon.None? && c.color.None?
  {
    var t := ErrorType(params);
    if t in InheritedKeys then
      var title := Get(params, "title");
      var message := Get(params, "message");
      RawConfig(None,
                if title.Some? && title.value != "" then title else None,
                if message.Some? && message.value != "" then message else None,
                None, None)
    else
      var k := ConfigOf(params);
      RawConfig(Some(k.code), Some(k.title), Some(k.message), Some(k.icon), Some(k.color))
  }

  /** `errorIconClasses()` as written: an unknown colour shows as "undefined". */
  function IconClassesAsWritten(params: QueryParams): (r: string)
    ensures StartsWith(r, IconBase + " ")
  {
    var color := ConfigAsWritten(params).color;
    var classes := if color.Some? then IconClasses(color.value) else None;
    IconBase + " " + Shown(classes)
  }

  /** The page title `setupSEO` computes as written. */
  function SeoTitleAsWritten(params: QueryParams): (r: string)
    ensures ErrorType(params) !in InheritedKeys ==> r == SeoTitleOf(ConfigOf(params))
  {
    var c := ConfigAsWritten(params);
    (if c.code.Some? && c.code.value != "" then c.code.value + " - " else "") + Shown(c.title)
  }

  /** `?type=constructor` selects no entry at all: the page shows the classes "undefined" and the
      title "undefined", where the table's fallback is meant to give the generic entry. */
  lemma InheritedTypeFinding()
    ensures var params := map["type" := "constructor"];
      ConfigAsWritten(params).color.None? &&
      IconClassesAsWritten(params) == IconBase + " undefined" &&
      SeoTitleAsWritten(params) == "undefined" &&
      ConfigOf(params).title == "Something went wrong" && IconClasses(ConfigOf(params).color).Some?
  {
    var params := map["type" := "constructor"];
    assert ErrorType(params) == "constructor";
    assert "constructor" in InheritedKeys;
    InheritedKeyAsWritten(params);
    assert KindOf("constructor").None?;
    assert BaseConfig(params) == Config(Generic);
    ConfigColorValid(params);
  }

  /** A type named after an inherited property, without a `title` parameter, leaves the colour,
      and so the classes, and the title undefined. */
  lemma InheritedKeyAsWritten(params: QueryParams)
    requires ErrorType(params) in InheritedKeys && "title" !in params
    ensures ConfigAsWritten(params).color.None? && ConfigAsWritten(params).code.None?
    ensures ConfigAsWritten(params).title.None?
    ensures IconClassesAsWritten(params) == IconBase + " undefined"
    ensures SeoTitleAsWritten(params) == "undefined"
  {
    var c := ConfigAsWritten(params);
    assert c.code.None? && c.icon.None? && c.color.None?;
    assert Get(params, "title").None?;
    assert c.title.None?;
  }
}
