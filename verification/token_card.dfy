/** The token card's formatting rules: price precision by magnitude tier,
    balance precision by a threshold of one, the signed 24h change, and the
    per-symbol icon and colour tables with their fallbacks. Only the chosen
    style is modelled; the digit strings come from the host's number formatting. */
module TokenCard {
  import opened Common

  /** A token as the card receives it. */
  datatype Token = Token(symbol: string, name: string, balance: real, price: real, priceChange24h: real)

  /** A price as the card prints it: a currency prefix followed by the digits. */
  datatype PriceLabel = PriceLabel(prefix: string, digits: Digits)

  /** The 24h change: optional `+`, the value with `digits`, a `%` suffix, a colour. */
  datatype ChangeLabel = ChangeLabel(prefix: string, digits: Digits, suffix: string, tone: Tone)

  /** What stands in the card's round badge: the token's image or its first letter. */
  datatype Glyph = Image(url: string) | Initial(text: string)

  datatype CardView = CardView(glyph: Glyph, balance: Digits, price: PriceLabel, change: ChangeLabel)

  const KnownSymbols: set<string> := {"SOL", "ETH", "BTC", "MATIC", "USDC"}

  const Icons: map<string, string> := map[
    "SOL" := "https://i.ibb.co/YBBwCFX7/SOL.png",
    "ETH" := "https://i.ibb.co/1GcrjzWf/ETH.webp",
    "BTC" := "https://i.ibb.co/Z1my5RZR/BTC.png",
    "MATIC" := "https://i.ibb.co/cK0GVkYN/MATIC.png",
    "USDC" := "https://i.ibb.co/CkDrGYL/USDC.png"]

  const Colors: map<string, string> := map[
    "SOL" := "from-purple-400 to-blue-500",
    "ETH" := "from-blue-400 to-purple-500",
    "BTC" := "from-orange-400 to-yellow-500",
    "MATIC" := "from-purple-500 to-pink-500",
    "USDC" := "from-green-400 to-blue-500"]

  const FallbackColor: string := "from-gray-400 to-gray-600"

  /** `formatPrice`: four decimals below one, two below a hundred, the
      locale-grouped form from a hundred up; every tier is prefixed with `$`. */
  function FormatPrice(price: real): (shown: PriceLabel)
    ensures shown.prefix == "$"
    ensures shown.digits == Fixed(4) <==> price < 1.0
    ensures shown.digits == Fixed(2) <==> 1.0 <= price < 100.0
    ensures shown.digits == LocaleGrouped <==> 100.0 <= price
  {
    if price < 1.0 then PriceLabel("$", Fixed(4))
    else if price < 100.0 then PriceLabel("$", Fixed(2))
    else PriceLabel("$", LocaleGrouped)
  }

  /** `formatBalance`: six decimals below one, four otherwise. */
  function FormatBalance(balance: real): (d: Digits)
    ensures d == Fixed(6) <==> balance < 1.0
    ensures d == Fixed(4) <==> 1.0 <= balance
  {
    if balance < 1.0 then Fixed(6) else Fixed(4)
  }

  /** The 24h change line. */
  function FormatChange(change: real): (shown: ChangeLabel)
    ensures shown.prefix == "+" <==> NonNegative(change)
    ensures shown.prefix == "" <==> !NonNegative(change)
    ensures shown.tone == Gain <==> NonNegative(change)
    ensures shown.digits == Fixed(2) && shown.suffix == "%"
  {
    if change >= 0.0 then ChangeLabel("+", Fixed(2), "%", Gain)
    else ChangeLabel("", Fixed(2), "%", Loss)
  }

  /** `getTokenIcon`, read as a lookup of the table's own entries. */
  function TokenIcon(symbol: string): (url: Option<string>)
    ensures url.Some? <==> symbol in KnownSymbols
    ensures url.Some? ==> url.value == Icons[symbol]
  {
    if symbol in Icons then Some(Icons[symbol]) else None
  }

  /** `getTokenColor`, read as a lookup of the table's own entries with the grey fallback. */
  function TokenColor(symbol: string): (gradient: string)
    ensures symbol in KnownSymbols ==> gradient == Colors[symbol]
    ensures symbol !in KnownSymbols ==> gradient == FallbackColor
  {
    if symbol in Colors then Colors[symbol] else FallbackColor
  }

  /** `symbol.charAt(0)`: the first character, or the empty string. */
  function FirstChar(symbol: string): (s: string)
    ensures |s| == if |symbol| == 0 then 0 else 1
    ensures s <= symbol
  {
    if |symbol| == 0 then "" else symbol[..1]
  }

  /** The badge shows the image when there is an icon, otherwise the first letter. */
  function CardGlyph(symbol: string): (g: Glyph)
    ensures g.Image? <==> symbol in KnownSymbols
    ensures g.Initial? ==> g.text == FirstChar(symbol)
  {
    match TokenIcon(symbol)
    case Some(url) => Image(url)
    case None => Initial(FirstChar(symbol))
  }

  /** The rule-selected parts of one card. */
  function Card(t: Token): (v: CardView)
    ensures v.glyph.Image? <==> t.symbol in KnownSymbols
    ensures v.glyph.Image? ==> v.glyph.url == Icons[t.symbol]
    ensures v.glyph.Initial? ==> v.glyph.text == FirstChar(t.symbol)
    ensures v.balance == FormatBalance(t.balance)
    ensures v.price == FormatPrice(t.price)
    ensures v.change.tone == Gain <==> NonNegative(t.priceChange24h)
    ensures v.change.prefix == "+" <==> NonNegative(t.priceChange24h)
    ensures v.change.digits == Fixed(2) && v.change.suffix == "%"
  {
    CardView(CardGlyph(t.symbol), FormatBalance(t.balance), FormatPrice(t.price), FormatChange(t.priceChange24h))
  }

  /** Every price falls in exactly one tier, and the tiers are ordered by
      magnitude: a cheaper token never gets fewer fixed decimals than a dearer one
      in the fixed tiers. */
  lemma PriceTiersPartition(p: real, q: real)
    ensures FormatPrice(p).digits in {Fixed(4), Fixed(2), LocaleGrouped}
    ensures p <= q && FormatPrice(q).digits.Fixed? ==>
      FormatPrice(p).digits.Fixed? && FormatPrice(q).digits.places <= FormatPrice(p).digits.places
  {
  }

  /** The change line's sign and colour agree: `+` appears exactly when it is green. */
  lemma ChangeSignMatchesTone(change: real)
    ensures FormatChange(change).prefix == "+" <==> FormatChange(change).tone == Gain
    ensures FormatChange(0.0).prefix == "+"
  {
  }

  // ---------------------------------------------------------------------------
  // The tables as written: JavaScript object literals

  /** A value read from a JavaScript object literal: one of its own string
      properties, `undefined`, or a member inherited from `Object.prototype`
      (a function or an object, always truthy). */
  datatype JsValue = Str(s: string) | Undefined | Inherited(name: string)

  /** The property names every object literal inherits from `Object.prototype`. */
  const PrototypeNames: set<string> := {
    "constructor", "hasOwnProperty", "isPrototypeOf", "propertyIsEnumerable",
    "toLocaleString", "toString", "valueOf", "__proto__",
    "__defineGetter__", "__defineSetter__", "__lookupGetter__", "__lookupSetter__"}

  predicate Truthy(v: JsValue) {
    match v
    case Str(s) => s != ""
    case Undefined => false
    case Inherited(_) => true
  }

  /** `table[key]` on an object literal whose own properties are `table`. */
  function PropertyGet(table: map<string, string>, key: string): (v: JsValue)
    ensures key in table ==> v == Str(table[key])
    ensures v == Undefined <==> key !in table && key !in PrototypeNames
  {
    if key in table then Str(table[key])
    else if key in PrototypeNames then Inherited(key)
    else Undefined
  }

  /** `getTokenIcon` as written. */
  function TokenIconAsWritten(symbol: string): (v: JsValue)
    ensures Truthy(v) <==> symbol in KnownSymbols || symbol in PrototypeNames
  {
    PropertyGet(Icons, symbol)
  }

  /** `getTokenColor` as written: `colors[symbol] || fallback`. */
  function TokenColorAsWritten(symbol: string): (v: JsValue)
    ensures v == Str(FallbackColor) <==> symbol !in KnownSymbols && symbol !in PrototypeNames
  {
    var found := PropertyGet(Colors, symbol);
    if Truthy(found) then found else Str(FallbackColor)
  }

  /** Whether the card renders an `<img>` as written (`tokenIcon ? <img/> : null`). */
  function ShowsImageAsWritten(symbol: string): bool {
    Truthy(TokenIconAsWritten(symbol))
  }

  /** Symbols that name an inherited member defeat both fallbacks: the card
      renders an `<img>` and hides the first letter (the function-valued source
      is dropped by React, so the image has none), and the colour lookup
      returns the inherited member instead of grey. The colour lookup is not
      used by the card's markup, so only the image half is visible. */
  lemma PrototypeSymbolDefeatsFallback()
    ensures ShowsImageAsWritten("toString") && !CardGlyph("toString").Image?
    ensures TokenColorAsWritten("constructor") == Inherited("constructor")
    ensures TokenColor("constructor") == FallbackColor
  {
  }

  /** For every symbol that is not an inherited member name, the as-written
      lookups agree with the own-entry lookups used by the rest of the model. */
  lemma AsWrittenAgreesOffPrototype(symbol: string)
    requires symbol !in PrototypeNames
    ensures ShowsImageAsWritten(symbol) <==> CardGlyph(symbol).Image?
    ensures TokenColorAsWritten(symbol) == Str(TokenColor(symbol))
  {
  }
}
