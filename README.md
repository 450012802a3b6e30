# boxrate: box selection, rate normalisation, item list and decimal sanitiser

A Dafny model of the decision logic of the boxrate shipping service. The
service takes a cart, chooses a shipping box and turns a carrier's quote list
into a fixed five-tier rate map. The model has four parts:

- `box_selector.dfy`, module `BoxSelector`, models `select_best_box`. The 3D
  packing library is an oracle: what it returns after packing is the input
  `packing`. That is a sequence of bins in the library's order, each with the
  catalog box it was built from and the items the library placed in it. The
  selection loop is a method. It walks the bins and returns the first one
  that received every item and whose used volume leaves the dunnage share of
  the box free. Otherwise it returns the error dictionary.
- `rates.dfy`, module `Rates`, models lines 51-109 of `get_shipping_rates`
  as a normaliser from the parsed quote list and the destination country to
  the rate map. It proceeds in these steps:
  - For an international destination, it keeps only the two international
    services and adds the 4.00 surcharge to each.
  - It applies the per-code markup.
  - It fills the five tiers in one pass, with the `no_rush` tie-break.

  Each of the four loops is a method proved against a function of its input.
  The properties are proved about those functions.
- `item_list.dfy`, module `ItemList`, models `get_variant_dimensions` and
  `build_item_list`. The metafield loop fills a dimensions map. The cart loop
  appends `qty` copies of each variant's item. The store lookup is the
  function parameter `fetch`.
- `decimals.dfy`, module `Decimals`, models `convert_decimals` as a function
  over a small Python value datatype. The conversion of one Decimal to a
  float is the function parameter `toFloat`.

`common.dfy`, module `Common`, holds `Option`, the `Item` record that the item
list produces and the box selector consumes, `NatToString` and `Digit` (the decimal
digits of the positional name `f"item-{i}"`), `DigitsValue` with the lemma
`NatToStringValue` (those digits spell the position), and two set-size
lemmas.

Floats are modelled as reals, so `4.50 * 1.06` is exactly `4.77` here.

### Behaviour of the code worth knowing

- **`no_rush` is not simply the cheaper economy quote.** A
  `usps_ground_advantage` quote overwrites the entry unconditionally. A
  `ups_ground_saver` quote replaces it only while it is empty or when it is
  strictly cheaper. The result therefore depends on quote order: saver 6.00
  followed by advantage 6.40 yields 6.784
  (`Rates.AdvantageOverwritesCheaperSaver`). For every quote list the entry
  is an economy-ground quote with no advantage quote after it and no
  strictly cheaper saver quote after it; when it is a saver quote, it is
  also strictly cheaper than every economy-ground quote since the last
  advantage quote (since the start of the list when there is none). Saver
  quotes before the last advantage quote do not count, however cheap
  (`Rates.NoRushWinner`, `Rates.PlacedNoRush`, `Rates.DomesticNoRushWinner`).
- **International destination.** Every country other than "US" is
  international, and a missing country is domestic
  (`Rates.OnlyUSIsDomestic`).
- **Tier groups.** For a domestic destination nothing is filtered, so an
  international service code that comes back fills its tier, without the
  surcharge (`Rates.DomesticTiers`).
- **Bin order.** The selector walks `packer.bins` after
  `pack(bigger_first=False)`, an order chosen by the packing library and not
  necessarily the catalog order. That order is an input of the model.
- **No fallback box.** When no bin qualifies the selector returns the error
  dictionary; no fallback box is substituted.
- **Empty cart.** An empty item list is accepted. The first bin whose box
  has a non-negative volume share is chosen.
- **Zero dimensions.** A metafield value that does not parse is recorded as
  0.0, and such an item goes on to the selector.
- **Dict keys.** `convert_decimals` does not convert dict keys: a Decimal key
  survives (`Decimals.DecimalKeyKept`). Nor does it look inside any
  object other than a dict, list, tuple or set: a frozenset, a deque or a
  custom object comes back as it is, Decimals inside included
  (`Decimals.FrozensetKept`). "No Decimal is left" holds everywhere except
  in dict keys and inside such objects (`Decimals.Sanitised`).

## Model

| member | source | states |
|---|---|---|
| BoxSelector.SelectBestBox | box_selector.py:43-61 | Returns the error dictionary, with its exact message, iff no bin both received all items and keeps used volume within `box volume * (1 - ratio)`. Otherwise it reports the first such bin: earlier bins all failed; name, length (from depth), width and height are the catalog box's; used volume is the packed items' sum; box volume is the product of the dimensions; dunnage reserved is `box volume * ratio`; the item names are the packed items'. |
| BoxSelector.FirstAccepted | box_selector.py:43-59 | The index of the first acceptable bin, with every earlier bin rejected; none exactly when no bin is acceptable. |
| BoxSelector.Names | box_selector.py:58 | One name per packed item, in packing order. |
| Common.NatToString | box_selector.py:32 | The positional name's number is all decimal digits, non-empty, with no leading zero except for 0. |
| Common.NatToStringValue | box_selector.py:32 | The digits of the positional name spell the item's position, so different positions get different names. |
| BoxSelector.SumVolumeAppend | box_selector.py:46 | The used volume of two item lists together is the sum of their used volumes. |
| BoxSelector.SumVolumePermutation | box_selector.py:46 | The used volume does not depend on the order in which the library lists the packed items. |
| BoxSelector.PackItemsVolume | box_selector.py:30-37 | The library items built from the input items have the same total volume as the input items (depth is the item length). |
| BoxSelector.FullPackVolume | box_selector.py:44-46 | When a bin received as many items as were added, the packed items are exactly those added, and the used volume is the input items' total volume. |
| BoxSelector.ExactFitIsRejected | box_selector.py:47 | A single 10×8×6 item and a 10×8×6 "Small" box at ratio 0.25: the box is rejected whatever the library packs. |
| Rates.Normalize | shipstation.py:51-109 | The rate map of the whole pipeline equals `Normalized(rates, country)` and has exactly the five tier keys. |
| Rates.DispatchTable | shipstation.py:62-109 | Each of the six service codes, and only that code, selects its service. |
| Rates.FilterInternational | shipstation.py:58 | The comprehension keeps exactly the two international services, in order. |
| Rates.AddSurcharge | shipstation.py:59-60 | Every kept quote gets 4.00 more, nothing else changes. |
| Rates.ApplyMarkups | shipstation.py:62-67 | Each quote gets the markup of its own code. |
| Rates.FillRateMap | shipstation.py:69-109 | The tier loop gives `Placed(quotes)`, a map with exactly the five tier keys. |
| Rates.Placed | shipstation.py:69-75 | Whatever the quotes, the map has exactly the keys no_rush, ups_ground, usps_priority, usps_priority_intl and ups_worldwide. |
| Rates.AdjustedPipeline | shipstation.py:57-67 | Filtering, surcharging and marking up the whole list in three passes equals adjusting each raw quote once, in order. |
| Rates.AdjustedOnce | shipstation.py:57-67 | The markup table: ×1.06 for the two economy-ground codes, +2.00 for usps_priority_mail and ups_ground, and nothing for any other code. Abroad, a kept quote gets +4.00 and nothing else, and the other quotes are dropped. |
| Rates.AdjustedFrom | shipstation.py:57-67 | Every quote that reaches the tier loop is the single adjustment of some raw quote, so none is adjusted twice or invented. |
| Rates.AdjustedKeepsAll | shipstation.py:57-67 | For a domestic destination, every quote reaches the tier loop, in order, with its markup. |
| Rates.PlaceEffect | shipstation.py:77-109 | Placing one quote changes at most the tier its code fills, and then to that quote's cost and delivery days. |
| Rates.PlacedProvenance | shipstation.py:77-109 | A tier is empty exactly when no quote's code fills it. A filled tier holds one such quote's cost and delivery days, so no amount is invented. |
| Rates.UnrecognisedIgnored | shipstation.py:77-109 | Removing every quote with an unrecognised code leaves the rate map unchanged. |
| Rates.LastWith | shipstation.py:90-109 | The quote it finds has the requested service. |
| Rates.LastWithIsLast | shipstation.py:90-109 | LastWith returns the quote at the last position having that service; it returns none iff no quote has it. |
| Rates.LastWins | shipstation.py:90-109 | For ups_ground, usps_priority_mail and both international services, the tier holds the last quote of that service, or stays empty. |
| Rates.LastWithAdjusted | shipstation.py:57-109 | The last adjusted quote of a service is the adjustment of the last raw quote of that service. |
| Rates.NormalizedLastWins | shipstation.py:51-109 | In the returned map, each one-to-one tier holds the last raw quote of its service, adjusted once. |
| Rates.NoRushAdvantage | shipstation.py:79-83 | A usps_ground_advantage quote sets no_rush to its own cost and delivery days, whatever no_rush held. |
| Rates.NoRushStep | shipstation.py:79-89 | A quote other than usps_ground_advantage changes no_rush only if it is a saver quote and no_rush is empty or the saver is strictly cheaper; a saver costing the same or more leaves the entry alone. It fills no_rush when empty, never raises the amount, and leaves an amount no larger than the saver's cost. |
| Rates.NoRushSince | shipstation.py:79-89 | After the last advantage quote, no_rush is the entry it had or one of the later saver quotes. |
| Rates.NoRushEmptySince | shipstation.py:79-89 | After the last advantage quote, no_rush is empty iff it was empty before and no saver quote follows. |
| Rates.NoRushNoDearer | shipstation.py:85 | After the last advantage quote, no later saver quote makes no_rush dearer than the entry it had. |
| Rates.NoRushBelowSavers | shipstation.py:85 | After the last advantage quote, a filled no_rush is no dearer than any later saver quote. |
| Rates.NoRushWinnerUnique | shipstation.py:77-89 | The no_rush rule (no advantage quote after the winner, no later saver strictly cheaper, a saver winner strictly cheaper than every economy quote since the last advantage quote) picks at most one position. |
| Rates.WinnerNoDearer | shipstation.py:77-89 | The quote the rule picks is no dearer than any economy quote after the last advantage quote. |
| Rates.NoRushEmptyIff | shipstation.py:77-89 | no_rush is empty iff no economy-ground quote is placed. |
| Rates.AdvantageWins | shipstation.py:79-83 | An advantage quote appended to any list is the one the rule picks. |
| Rates.SaverWins | shipstation.py:84-89 | An appended saver quote is picked when no economy quote came before it or when it is strictly cheaper than the quote picked so far. |
| Rates.WinnerKept | shipstation.py:77-109 | Any other appended quote, including a saver that is not strictly cheaper, leaves the picked quote unchanged. |
| Rates.PlacedNoRush | shipstation.py:77-89 | For every quote list, a filled no_rush holds the cost and delivery days of the quote the rule picks. |
| Rates.WinnerUnderMarkup | shipstation.py:62-65 | The 6% markup keeps every service and scales economy costs by one positive factor, so the picked position is the same before and after it. |
| Rates.DomesticNoRushWinner | shipstation.py:62-89 | For a domestic destination, a filled no_rush is the raw quote the rule picks, at its cost × 1.06 with its delivery days. |
| Rates.InternationalGating | shipstation.py:51-109 | For an international destination, no_rush, ups_ground and usps_priority stay empty. |
| Rates.InternationalTiers | shipstation.py:57-109 | For an international destination, each international tier holds the last quote of its service with 4.00 added, or is empty. |
| Rates.DomesticTiers | shipstation.py:57-109 | For a domestic destination, ups_ground and usps_priority hold the last quote's cost + 2.00. An international code fills its tier at the carrier's cost, with no surcharge. |
| Rates.EconomyFillsNoRush | shipstation.py:62-89 | Exactly the two economy-ground services fill no_rush, and their markup is ×1.06. |
| Rates.DomesticNoRushEmpty | shipstation.py:62-89 | For a domestic destination, no_rush is empty iff no economy-ground quote came back. |
| Rates.DomesticNoRushSource | shipstation.py:62-89 | For a domestic destination, a filled no_rush is some economy-ground quote's cost × 1.06, with that quote's delivery days. |
| Rates.EconomyPair | shipstation.py:62-65 | Two domestic economy-ground quotes reach the tier loop marked up by 6%, in order. |
| Rates.SaverCheaperAfterAdvantage | shipstation.py:79-89 | Advantage 5.00, then saver 4.50: no_rush is 4.77. |
| Rates.AdvantageOverwritesCheaperSaver | shipstation.py:79-89 | Saver 6.00, then advantage 6.40: no_rush is 6.784; the cheaper saver loses. |
| Rates.EqualSaverKeepsAdvantage | shipstation.py:85 | A saver quote equal to the current amount does not replace it: the advantage quote's delivery days stay. |
| Rates.OnlyUSIsDomestic | shipstation.py:51 | Any two countries other than "US" give the same rate map. A missing country gives the same map as "US". |
| Rates.InternationalSurchargeOnlyAbroad | shipstation.py:51-60 | The same priority-international quote costs 30.00 for "US" and 34.00 for "CA". |
| ItemList.Recorded | shopify.py:20-28 | The dimensions map only ever has keys among length, width, height and weight. |
| ItemList.DimensionsOf | shopify.py:30 | Dimensions come back only with all four keys. |
| ItemList.VariantDimensions | shopify.py:19-30 | The metafield loop returns `DimensionsOf(fields)`. |
| ItemList.GetVariantDimensions | shopify.py:15-30 | A failed lookup gives none; otherwise the result is the metafield loop's. |
| ItemList.BuildItemList | shopify.py:33-50 | The nested loops return `ItemsOf(cart, fetch)`. |
| ItemList.RecordedKeys | shopify.py:21-26 | A key is recorded iff some field in namespace "product" carries it and it is one of the four keys. |
| ItemList.LastField | shopify.py:21-26 | The field it finds is a "product" field with the requested key. |
| ItemList.RecordedLastWins | shopify.py:21-28 | A recorded value comes from the last such field with that key. A value that does not parse is recorded as 0.0, not skipped. |
| ItemList.DimensionsComplete | shopify.py:30 | Dimensions come back iff each of the four keys appears on some "product" field. |
| ItemList.UnparsableValueIsZero | shopify.py:25-28 | A "length" field that does not parse, with the other three present, gives length 0.0. |
| ItemList.OtherNamespaceIgnored | shopify.py:22 | A "weight" field outside namespace "product" does not count, so the dimensions are missing. |
| ItemList.ItemsOfAppend | shopify.py:36-48 | The item list of consecutive cart lines is the concatenation of their item lists. |
| ItemList.LineRun | shopify.py:36-48 | Each cart line contributes one contiguous run, in cart order. The run has `qty` copies, or nothing when the variant has no dimensions or `qty <= 0`. |
| ItemList.ItemsOfLength | shopify.py:36-48 | The number of items is the sum of the positive quantities of variants with dimensions. |
| ItemList.ItemsOfProvenance | shopify.py:41-48 | Every item has the id of a cart variant that has dimensions, and exactly that variant's four numbers. |
| ItemList.QuantityExpansion | shopify.py:37-48 | Two units of a variant with dimensions, plus a variant the store does not answer for, give two identical items of the first variant. |
| Decimals.Convert | utils.py:3-15 | The result has no Decimal outside dict keys and the insides of objects other than a dict, list, tuple or set. A Decimal becomes `toFloat` of it, and other leaves are unchanged. A dict keeps its length and each entry's key, with the value converted; a list or tuple keeps its kind and length, with each element converted in place; a set becomes exactly the set of its converted members, so it may only shrink. |
| Decimals.ImageNoLarger | utils.py:12-13 | A converted set is no larger than the original, since converted members may merge. |
| Decimals.SanitisedUnchanged | utils.py:3-15 | A value with no Decimal outside dict keys and the insides of objects other than a dict, list, tuple or set is returned unchanged. |
| Decimals.Idempotent | utils.py:3-15 | Converting twice equals converting once. |
| Decimals.DecimalKeyKept | utils.py:6-7 | A Decimal dict key comes back unconverted, while its Decimal value becomes a float. |
| Decimals.FrozensetKept | utils.py:12-15 | A frozenset holding a Decimal is returned as it is, while a set holding the same Decimal gets it converted. |

## Left out

- The 3D packing library (its fit test, bin ordering, rounding and item volume) is an oracle. Its result after packing is the input `packing`. `FullPackVolume` requires that the library returns only items that were added.
- `load_boxes` file I/O is left out: the catalog is known only through the boxes in `packing`. Building the bins and library items is modelled by `ToBin` and `PackItems`.
- BoxSelector.SelectBestBox: `item.get("id", ...)` returns a present-but-null id as is. The model's `id` is either a string or absent, and an absent id gets the positional name.
- Weight limits are part of the oracle's fit test. The selector itself never looks at weight.
- HTTP calls, environment variables, authentication and logging are left out. A non-200 response from the carrier returns an error dictionary before normalisation, so it is outside `Normalize`. A non-200 response from the store is `fetch(v) == None`.
- `float()` parsing of `shipmentCost` is left out: costs are already numeric. A cost that does not parse raises in the source. A quote without `serviceCode` raises in the international filter and is not modelled.
- The float rounding of markups, volumes and the Decimal-to-float conversion is left out: all are reals or the abstract `toFloat`.
- Python's in-place mutation of the quote dictionaries inside the response list is modelled as sequences the loops reassign. The aliasing with the response object is not modelled, since nothing reads the response afterwards.
- ItemList.BuildItemList: variant ids are taken in their `str()` form. The cart is a sequence in dictionary iteration order, and its keys are not required to be distinct.
- ItemList.BuildItemList: a quantity that is not an integer makes `range(qty)` raise TypeError. The model's quantity is an integer, so that exception path is not modelled.
- ItemList.VariantDimensions: a metafield without "namespace", "key" or "value", or a response without "metafields", raises KeyError, which the `except` for ValueError and TypeError does not catch. A `Metafield` always has all three fields, so that exception path is not modelled.
- Decimals.Convert: Python equality between numbers of different types (`Decimal(1) == 1.0`) is not modelled. Set members of different constructors are distinct values.
- Decimals.Convert: Decimal values that are not numbers (NaN, sNaN, Infinity) are not modelled, since a Decimal here is a real. The exception `float()` raises for a signalling NaN is therefore not modelled either.
- Decimals.Convert: hashability is not modelled. A `Set` may hold lists, dicts and sets, which Python cannot put in a set, and dict keys may be any value.
- Decimals.Convert: subclasses of dict, list, tuple and set are not modelled. `isinstance` accepts them and the comprehensions build the base type, so an OrderedDict comes back as a plain dict and a namedtuple as a plain tuple; `Value` has no subclass kinds.
- The Flask routes of `app.py` and the carrier-service registration script are not part of this model.
