/** The card of one menu item on the customer menu: which text it shows,
    how it labels the price, and when it shows the picture, the "not
    available" badge and the spicy-level selector.

    Prices are whole numbers here (the columns are floating point, which is
    not modelled), so `price.toFixed(2)` always ends in `.00`. */
module MenuItemCard {
  import opened Common
  import opened Store
  import opened Localisation
  import SpicySelector

  /** `currencySymbols`: the symbol table of `formatPrice`. */
  function SymbolOf(currency: string): Option<string>
  {
    if currency == "THB" then Some("\U{0E3F}")
    else if currency == "USD" then Some("$")
    else if currency == "EUR" then Some("\U{20AC}")
    else if currency == "JPY" then Some("\U{00A5}")
    else if currency == "CNY" then Some("\U{00A5}")
    else if currency == "SGD" then Some("S$")
    else None
  }

  /** `currencySymbols[currency] || currency`. */
  function CurrencySymbol(currency: string): (r: string)
    ensures SymbolOf(currency).None? ==> r == currency
    ensures SymbolOf(currency).Some? ==> r == SymbolOf(currency).value
  {
    OrElse(SymbolOf(currency), currency)
  }

  /** The six known currencies have their own symbol, except that the yen
      and the yuan share one; any other code is shown as itself. */
  lemma SymbolsDistinct()
    ensures forall a, b :: SymbolOf(a).Some? && SymbolOf(b).Some? && a != b && CurrencySymbol(a) == CurrencySymbol(b)
                           ==> {a, b} == {"JPY", "CNY"}
    ensures CurrencySymbol("JPY") == CurrencySymbol("CNY")
  {
  }

  /** `price.toFixed(2)` of a whole number. */
  function Fixed2(price: int): string
  {
    (if price < 0 then "-" else "") + DecimalString(if price < 0 then -price else price) + ".00"
  }

  /** `formatPrice`: `${symbol} ${price.toFixed(2)}`. */
  function PriceLabel(currency: string, price: int): string
  {
    CurrencySymbol(currency) + " " + Fixed2(price)
  }

  /** The label is the symbol, a space, then the digits of the price and
      `.00`; the digits read back as the price, so two different prices
      never get the same label. */
  lemma {:induction false} PriceLabelReadsBack(currency: string, price: nat)
    ensures var head := CurrencySymbol(currency) + " ";
      var shown := PriceLabel(currency, price);
      && |shown| == |head| + |DecimalString(price)| + 3
      && shown[..|head|] == head
      && shown[|shown| - 3..] == ".00"
      && DecimalValue(shown[|head|..|shown| - 3]) == price
  {
    var head := CurrencySymbol(currency) + " ";
    var shown := PriceLabel(currency, price);
    assert shown == head + DecimalString(price) + ".00";
    assert shown[|head|..|shown| - 3] == DecimalString(price);
    DecimalRoundTrip(price);
  }

  lemma {:induction false} PriceLabelInjective(currency: string, p: nat, q: nat)
    requires PriceLabel(currency, p) == PriceLabel(currency, q)
    ensures p == q
  {
    PriceLabelReadsBack(currency, p);
    PriceLabelReadsBack(currency, q);
  }

  /** What the card renders. */
  datatype Card = Card(
    name: string, desc: Option<string>, image: Option<string>, price: string,
    dimmed: bool, notAvailableBadge: bool, spicySelector: bool)

  /** The card of `item` in language `lang`. */
  function RenderCard(item: MenuItem, lang: Language, currency: string): (c: Card)
    ensures c.name == Localised(item.name, lang)
    ensures c.desc.Some? <==> Localised(item.desc, lang) != ""
    ensures c.desc.Some? ==> c.desc.value == Localised(item.desc, lang)
    ensures c.image.Some? <==> Truthy(item.imageUrl)
    ensures c.dimmed <==> !item.available
    ensures c.notAvailableBadge <==> !item.available
    ensures c.spicySelector <==> item.hasSpicy && item.available
    ensures c.price == PriceLabel(currency, item.price)
  {
    var desc := Localised(item.desc, lang);
    Card(Localised(item.name, lang), if desc != "" then Some(desc) else None,
         if Truthy(item.imageUrl) then item.imageUrl else None,
         PriceLabel(currency, item.price), !item.available, !item.available, item.hasSpicy && item.available)
  }

  /** A card never shows both the badge and the selector: an item that
      cannot be ordered offers no spice choice, and an available spicy
      item always does. */
  lemma {:induction false} BadgeAndSelectorExclusive(item: MenuItem, lang: Language, currency: string)
    ensures var c := RenderCard(item, lang, currency);
      && !(c.notAvailableBadge && c.spicySelector)
      && (c.spicySelector ==> item.hasSpicy)
      && (item.available ==> !c.notAvailableBadge && !c.dimmed)
  {
  }

  /** `useState(0)`: the spicy level a card starts with. */
  const InitialSpicyLevel: int := 0

  /** A new card's selector highlights the "no chili" button and no other. */
  lemma InitialLevelIsNoChili()
    ensures var b := SpicySelector.Buttons(InitialSpicyLevel);
      && b[0].emoji == SpicySelector.Cross
      && forall i :: 0 <= i < |b| ==> (b[i].highlighted <==> i == 0)
  {
    SpicySelector.LevelsTable();
  }
}
