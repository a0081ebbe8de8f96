# Offer pricing and role-based navigation, modelled in Dafny

This project models the two pieces of logic in the delivery marketplace's
web client that are not presentation:

* **The offer form of the chat's negotiation panel.** Whoever opens the panel
  fills in a base price, a date, a note and a list of checked services, among
  three extra services (insurance, priority delivery, live tracking). When the
  other party is a traveler, each service is priced at that traveler's own
  trip price if it is truthy; otherwise, and always when the other party is
  not a traveler, each takes its default of 5, 10 or 3. The total is the base price read with
  `Number(price) || 0` plus a left fold over the checked ids that adds each
  id's catalog price, or 0 for an id the catalog does not know. Checking a box
  appends its id. Unchecking a box filters every occurrence of that id out.
  Submitting assembles the offer record.
* **The dashboard sidebar.** A constant list of six navigation entries, each
  tagged `sender`, `traveler` or `all`, filtered by the signed-in user's
  `permissions`.

Modules, one concept each:

| file | module | contents |
|---|---|---|
| `optional.dfy` | `Optional` | `Option`, standing for a JavaScript value that may be `undefined` |
| `lists.dfy` | `Lists` | `Array.prototype.filter` as `Filter`, with its order and multiplicity facts |
| `numbers.dfy` | `Numbers` | the JavaScript or-fallback on numbers; `Number()` and `toString()` on whole numbers |
| `pricing.dfy` | `Pricing` | the service catalog, `find`, the `reduce` total and the uncheck filter |
| `negotiation.dfy` | `Negotiation` | the form state as a class with its change handlers and submit |
| `sidebar.dfy` | `Sidebar` | the navigation entries, the role predicate and the filter |

The form state lives in four React `useState` cells. Event handlers overwrite
them one at a time, so it is modelled as the class
`Negotiation.NegotiationForm`, with one field per cell and one method per
handler. Everything else is pure and is modelled as functions and lemmas.

Two facts about the selection shape the model:

* The selection is a list, not a set. The check branch of the handler appends
  without looking for an earlier copy, and the total would count a second copy
  twice. The form never asks for one, because a box shows as checked exactly
  when its id is selected, so the check branch runs only for an absent id.
* No handler checks that a selected id is a catalog id. This holds because the
  checkboxes are built from the catalog. The model states both facts as an
  invariant (`WellFormed`: catalog ids, no duplicates). `OnServiceChange`
  keeps it for a catalog id whose requested state is the opposite of its
  current one. `Check` keeps it for a catalog id not yet selected, and
  `Uncheck` always keeps it.

## Model

| member | source | states |
|---|---|---|
| `Numbers.Or` | src/components/chat/NegotiationPanel.tsx:34-57 | the or-fallback on a number that may be missing: a present non-zero number wins, and a missing value, 0 or NaN gives the default |
| `Numbers.ParseNumber` | src/components/chat/NegotiationPanel.tsx:54 | `Number(price)`: the empty string reads as 0, a string of digits reads as its value, a minus sign followed by digits reads as the negated value, and anything else is NaN |
| `Numbers.BasePrice` | src/components/chat/NegotiationPanel.tsx:54 | `Number(price)` with 0 as fallback: the parsed value, or 0 when the price does not parse |
| `Numbers.Digits` | src/components/chat/NegotiationPanel.tsx:13 | the decimal text of a whole number has at least one digit and no leading zero |
| `Numbers.Decimal` | src/components/chat/NegotiationPanel.tsx:13 | `price.toString()` is non-empty and starts with `-` exactly for negative numbers |
| `Numbers.DigitsRoundTrip` | src/components/chat/NegotiationPanel.tsx:13 | reading back the digits written for n gives n |
| `Numbers.ParseDecimal` | src/components/chat/NegotiationPanel.tsx:13-54 | `Number(n.toString())` is n for every whole number n |
| `Numbers.BasePriceOfDecimal` | src/components/chat/NegotiationPanel.tsx:13-54 | the base price read from the package's own price text is that price |
| `Pricing.TravelerTrip` | src/components/chat/NegotiationPanel.tsx:21 | the other user's active trip when that user is a traveler, and none otherwise |
| `Pricing.PricingOf` | src/components/chat/NegotiationPanel.tsx:34 | `travelerTrip?.pricing` is missing without a trip, and is the trip's prices otherwise |
| `Pricing.InsuranceOverride` | src/components/chat/NegotiationPanel.tsx:34 | `travelerTrip?.pricing?.insurance` is missing without trip prices, and is their insurance price otherwise |
| `Pricing.PriorityOverride` | src/components/chat/NegotiationPanel.tsx:41 | `travelerTrip?.pricing?.priority` is missing without trip prices, and is their priority price otherwise |
| `Pricing.TrackingOverride` | src/components/chat/NegotiationPanel.tsx:48 | `travelerTrip?.pricing?.tracking` is missing without trip prices, and is their tracking price otherwise |
| `Pricing.Catalog` | src/components/chat/NegotiationPanel.tsx:23-51 | three services in the order insurance, priority, tracking, each priced at its trip override when truthy, else at its default of 5, 10 or 3 |
| `Pricing.CatalogPrice` | src/components/chat/NegotiationPanel.tsx:23-57 | the price an id adds is the truthy override or else the default for the three known ids, and 0 for every other id; it is non-zero exactly for the three ids |
| `Pricing.Find` | src/components/chat/NegotiationPanel.tsx:56 | `find` is missing exactly when no service has the id; when present, the service is in the catalog and has that id |
| `Pricing.FindFirst` | src/components/chat/NegotiationPanel.tsx:56 | `find` returns the first service with the id |
| `Pricing.ServicePrice` | src/components/chat/NegotiationPanel.tsx:56-57 | an id that matches no service adds 0; a matching id adds that service's price |
| `Pricing.ServicesTotal` | src/components/chat/NegotiationPanel.tsx:55-58 | the left fold from accumulator `acc` equals `acc` plus the sum of the selected ids' prices |
| `Pricing.CalculateTotal` | src/components/chat/NegotiationPanel.tsx:53-60 | the total is the base price plus the sum of the selected ids' prices; with nothing selected it is the base price, and with an empty price and nothing selected it is 0 |
| `Pricing.Unselect` | src/components/chat/NegotiationPanel.tsx:149 | the filtered selection no longer holds the id and keeps every other id as often as before |
| `Pricing.Other` | src/components/chat/NegotiationPanel.tsx:149 | the predicate `id => id !== service.id` rejects that id and accepts every other |
| `Pricing.SumAppend` | src/components/chat/NegotiationPanel.tsx:55-58 | the services total of a concatenation is the sum of the totals of its parts |
| `Pricing.SumPermutation` | src/components/chat/NegotiationPanel.tsx:55-58 | two selections that are permutations of each other have the same services total, so the order of selection does not matter |
| `Pricing.SumUnselect` | src/components/chat/NegotiationPanel.tsx:148-149 | removing every occurrence of an id lowers the services total by its price times its number of occurrences |
| `Pricing.TotalAfterSelect` | src/components/chat/NegotiationPanel.tsx:146-147 | appending an id raises the total by exactly that id's price |
| `Pricing.TotalAfterUnselect` | src/components/chat/NegotiationPanel.tsx:148-149 | filtering an id out lowers the total by its price once per occurrence |
| `Pricing.UnknownIdAddsNothing` | src/components/chat/NegotiationPanel.tsx:56-57 | an id that names no service leaves the total unchanged wherever it sits in the selection |
| `Pricing.DefaultTotalExample` | src/components/chat/NegotiationPanel.tsx:23-60 | with no trip prices, a base price of "100" with insurance and tracking totals 108 |
| `Negotiation.NegotiationForm.constructor` | src/components/chat/NegotiationPanel.tsx:13-16 | on first render the price is the package's price as text and the date is the package's date, both `''` without a package; no services are selected and the note is empty; the total is the package price, or 0 without a package |
| `Negotiation.NegotiationForm.SetPrice` | src/components/chat/NegotiationPanel.tsx:102 | the price field becomes the typed text and nothing else changes |
| `Negotiation.NegotiationForm.SetDate` | src/components/chat/NegotiationPanel.tsx:122 | the date field becomes the chosen date and nothing else changes |
| `Negotiation.NegotiationForm.SetNote` | src/components/chat/NegotiationPanel.tsx:175 | the note field becomes the typed text and nothing else changes |
| `Negotiation.NegotiationForm.Check` | src/components/chat/NegotiationPanel.tsx:146-147 | the id is appended and earlier entries are unchanged; the total rises by its price; checking a catalog id not yet selected keeps the selection well formed |
| `Negotiation.NegotiationForm.Uncheck` | src/components/chat/NegotiationPanel.tsx:148-149 | every occurrence of the id is removed and the rest keep their order; the total falls by its price per occurrence, or by its price once if selected and 0 otherwise on a well-formed selection; well-formedness is kept |
| `Negotiation.NegotiationForm.OnServiceChange` | src/components/chat/NegotiationPanel.tsx:135-151 | a checked box appends its id, and an unchecked box filters it out; for a catalog id whose box flips from its shown state, a well-formed selection stays well formed |
| `Negotiation.NegotiationForm.Submit` | src/components/chat/NegotiationPanel.tsx:62-124 | submitting needs a non-empty price and date, as the `required` inputs demand; the offer's price is the base price plus the selected services' prices, and its date, services and note are the form's own |
| `Negotiation.NoDuplicatesCount` | src/components/chat/NegotiationPanel.tsx:144-149 | in a selection without duplicates each id occurs once if present and not at all otherwise |
| `Negotiation.UnselectKeepsWellFormed` | src/components/chat/NegotiationPanel.tsx:148-149 | filtering an id out of a duplicate-free catalog selection leaves a duplicate-free catalog selection |
| `Lists.Filter` | src/components/dashboard/Sidebar.tsx:152 | `filter` returns no more elements than its input, and only elements the predicate accepts |
| `Lists.FilterMembers` | src/components/dashboard/Sidebar.tsx:152 | `filter` drops no accepted element and introduces none |
| `Lists.KeptIndices` | src/components/dashboard/Sidebar.tsx:152 | the kept elements sit at strictly increasing positions of the input, so their relative order is unchanged |
| `Lists.KeptIndicesComplete` | src/components/dashboard/Sidebar.tsx:152 | every accepted position is among the kept positions |
| `Lists.FilterCount` | src/components/chat/NegotiationPanel.tsx:149 | `filter` keeps each accepted element as often as it occurs, and no rejected one |
| `Lists.FilterAppend` | src/components/dashboard/Sidebar.tsx:152 | filtering a concatenation filters each part separately |
| `Lists.FilterCongruent` | src/components/dashboard/Sidebar.tsx:152-154 | two predicates that agree on every element give the same result |
| `Sidebar.Permissions` | src/components/dashboard/Sidebar.tsx:153 | `user?.permissions` is missing when no one is signed in, and is the user's own permissions otherwise |
| `Sidebar.Visible` | src/components/dashboard/Sidebar.tsx:153 | an `all` entry is always visible, and an entry whose role the permissions name is visible; without permissions exactly the `all` entries are visible; any other entry is hidden |
| `Sidebar.SidebarItems` | src/components/dashboard/Sidebar.tsx:36-150 | the six declared entries, in declaration order |
| `Sidebar.FilteredItems` | src/components/dashboard/Sidebar.tsx:152-154 | every entry shown has role `all` or the role named by the user's permissions, and none is added |
| `Sidebar.FilterComplete` | src/components/dashboard/Sidebar.tsx:152-154 | every `all` entry and every entry of the user's role is shown, and only declared entries appear |
| `Sidebar.FilterKeepsOrder` | src/components/dashboard/Sidebar.tsx:152 | the shown entries keep their declared relative order, and every visible entry is among them |
| `Sidebar.NoUserSeesSharedOnly` | src/components/dashboard/Sidebar.tsx:153 | with no user, exactly the `all` entries are shown |
| `Sidebar.OtherPermissionSeesShared` | src/components/dashboard/Sidebar.tsx:153 | a permission other than `sender` or `traveler` sees the same entries as no user |
| `Sidebar.SenderView` | src/components/dashboard/Sidebar.tsx:36-154 | a sender sees packages, sender orders and issues, in that order |
| `Sidebar.TravelerView` | src/components/dashboard/Sidebar.tsx:36-154 | a traveler sees trips, profile, traveler orders and issues, in that order |
| `Sidebar.VisitorView` | src/components/dashboard/Sidebar.tsx:36-154 | without a user only the issues entry is shown |

## Left out

- Rendering: all JSX, CSS classes, icons, the modal layout, the displayed total and the per-service price labels. These are presentation only.
- `useSimpleChat`, `sendMessage` and `onClose`: their behaviour lives outside these files. `Submit` returns the offer record. Its delivery and the closing of the panel are not modelled.
- The `New offer: €… for …` message text. It depends on JavaScript's number-to-string conversion of fractional amounts.
- The render guard that shows nothing without a package, a current user or another user (NegotiationPanel.tsx:18). Submitting is only possible when the panel renders. The model does not track the current user, and it takes the other user as present.
- Negotiation.NegotiationForm.constructor: states the initial values of the first render only. `useState` ignores its argument on later renders, so a package that arrives or changes after the first render never resets the price or the date. The model has no later renders and does not state this.
- `isSender` (NegotiationPanel.tsx:20) is computed but never used.
- The service catalog is recomputed on every render from the other user. The model fixes it when the form is created.
- Numbers.ParseNumber: reads only an optional minus sign followed by decimal digits. Fractions, exponents and other `Number()` syntax are treated as NaN, so a fractional price reads as 0 here, whereas the browser would give the fraction.
- Numbers.Decimal: writes whole numbers only, always as plain digits. A fractional package price is not modelled. JavaScript's `toString` switches to exponent form from 1e21, and integers beyond 2^53 are rounded in JavaScript but exact here.
- Floating-point addition: all amounts are unbounded integers, so rounding of fractional sums is not modelled.
- `useAuth`, `useTranslations`/`t()`, `usePathname` and active-link highlighting. These are framework hooks. An entry's `caption` holds the translation key or the literal label, and icons are dropped.
- The commented-out sidebar entries. They are not part of the list the code builds.
- `next.config.js`, `src/services/webConstants.ts` and `src/components/chat/TravelerPackageDropdown.tsx`. They hold build configuration, a constant string map and a presentational `<select>`, none of which has behaviour to state.
