# Property registry — a Dafny model

The application is a small property-management front end. Its core is an
in-memory registry of property records (a residence, a villa, an apartment
building, a commercial building, …) kept in a React context. The registry is
seeded with four sample records and offers four operations: append a record
under an id taken from the clock (`Date.now().toString()`, never checked
against the ids in use), merge a partial update into every record with a given id,
delete every record with a given id, and look up the first record with an id.
Four pages consume it. The three modelled here are:

- the listing searches records by name or address, sums the revenue strings
  into a portfolio total, averages the occupancy rates and colours a status
  badge;
- the create/edit form converts a record into string inputs and back
  (`parseInt(..) || default`, `"$ " + toLocaleString()` amounts, uploaded
  files turned into documents), then either updates the routed record or
  adds a new one;
- the documents page guards against an unknown id, lists a record's
  documents with a name search, counts them into four keyword categories and
  picks an icon per document type.

The model has eight modules:

- `Registry` (registry.dfy): the record types, the JavaScript
  `Partial<Property>` with its three states per key (absent, a value,
  `undefined`), the spread merge, `find`, the seed list and the
  `PropertyStore` class. The class holds the list in a `seq` field and
  changes it with `AddProperty`, `UpdateProperty` and `DeleteProperty`.
- `PropertiesPage`, `AddPropertyPage`, `DocumentsPage`: one module per page.
  The form page has an `AddPropertyPage` class whose fields are the page's
  state cells.
- `Seqs`, `Text`, `Numbers`, `Wrappers`: the parts of the JavaScript library
  the pages rely on, written out as functions:
  - `Array.filter`, and removing the element at an index;
  - `includes`, and `toLowerCase`/`toUpperCase`;
  - `parseInt`, `toString`, `toLocaleString` and `replace(/[^0-9]/g, '')`;
  - an `Option` type.

## Model

| member | source | states |
|---|---|---|
| `Registry.Merge` | src/context/PropertyContext.tsx:168 | Every key present in the partial takes the partial's value, an explicit `undefined` included. Every key absent from it keeps the record's value. |
| `Registry.Find` | src/context/PropertyContext.tsx:176-178 | Returns nothing exactly when no record has the id. Otherwise it returns the first record with that id. |
| `Registry.Updated` | src/context/PropertyContext.tsx:166-170 | Length and order are kept. Records with the id are merged, the others are untouched, and an unknown id leaves the list unchanged. |
| `Registry.Deleted` | src/context/PropertyContext.tsx:172-174 | The result is an order-preserving subsequence with no record of that id, so a lookup of the id finds nothing. Every record with another id keeps its multiplicity. An unknown id changes nothing. |
| `Registry.DeletedMembers` | src/context/PropertyContext.tsx:173 | A record survives the delete exactly when it was registered and its id differs. |
| `Registry.FindAfterAppend` | src/context/PropertyContext.tsx:161-164 | After an append, a lookup finds the old first match if there was one, otherwise the appended record if its id matches. |
| `Registry.CreateGetRoundTrip` | src/context/PropertyContext.tsx:161-178 | Adding under a fresh id and then looking that id up returns the added record. |
| `Registry.FindAfterDelete` | src/context/PropertyContext.tsx:172-178 | Deleting one id does not change the lookup of any other id. |
| `Registry.FindAfterUpdate` | src/context/PropertyContext.tsx:166-178 | After an update that does not touch the id key, the lookup of that id returns the merged record, and every other lookup is unchanged. |
| `Registry.AppendKeepsDistinct` | src/context/PropertyContext.tsx:161-164 | Adding under a fresh id keeps the ids pairwise distinct. |
| `Registry.DeleteKeepsDistinct` | src/context/PropertyContext.tsx:172-174 | Deleting keeps the ids pairwise distinct. |
| `Registry.UpdateKeepsIds` | src/context/PropertyContext.tsx:166-170 | An update without an `id` key keeps every record's id, so distinct ids stay distinct. |
| `Registry.SeedIds` | src/context/PropertyContext.tsx:30-143 | The seed list has four records with the pairwise-distinct ids "1" to "4". |
| `Registry.SeedScenario` | src/context/PropertyContext.tsx:30-174 | From the seeds: add a record, delete "2", then set the status of "3". The result is the three remaining seeds and the new record, with "3" changed in its status only. |
| `Registry.ScenarioSteps` | src/context/PropertyContext.tsx:161-174 | The same add/delete/update sequence on any four records with ids "1" to "4". |
| `Registry.ScenarioDelete` | src/context/PropertyContext.tsx:161-174 | Deleting "2" after an append to four records with ids "1" to "4" leaves records 1, 3, 4 and the appended one, in that order. |
| `Registry.ScenarioUpdate` | src/context/PropertyContext.tsx:166-178 | After that delete, an update of "3" that keeps the id makes the lookup of "3" return the merged record. |
| `Registry.ScenarioUpdateOthers` | src/context/PropertyContext.tsx:166-170 | That update leaves every record whose id is not "3" as it was. |
| `Registry.PropertyStore.constructor` | src/context/PropertyContext.tsx:159 | The registry starts with the seed list. |
| `Registry.PropertyStore.AddProperty` | src/context/PropertyContext.tsx:161-164 | The list becomes the old list followed by the new record under the given id. |
| `Registry.PropertyStore.UpdateProperty` | src/context/PropertyContext.tsx:166-170 | The list becomes the merge-by-id of the old list. |
| `Registry.PropertyStore.DeleteProperty` | src/context/PropertyContext.tsx:172-174 | The list becomes the old list without the id. |
| `Registry.PropertyStore.GetPropertyById` | src/context/PropertyContext.tsx:176-178 | Returns `undefined` exactly when no record has the id, otherwise the first match. It only reads the list. |
| `Seqs.Filter` | src/pages/Properties.tsx:55-58 | `filter` keeps an order-preserving subsequence of kept elements, and keeps everything when every element passes. |
| `Seqs.FilterMultiset` | src/pages/Properties.tsx:55-58 | Every kept element occurs in the result as often as in the input, and every other element not at all. |
| `Seqs.RemoveAt` | src/pages/AddProperty.tsx:174 | Filtering out index `i` removes exactly that element and keeps the others in order. An index outside the list removes nothing. |
| `Text.ContainsSpec` | src/pages/Properties.tsx:56-57 | `includes` holds exactly when the term occurs at some position. |
| `Text.LowerIdempotent` | src/pages/Properties.tsx:56-57 | Lower-casing twice is lower-casing once. |
| `Text.ContainsNoLonger` | src/pages/PropertyDocuments.tsx:148-182 | A string contains only terms no longer than itself, and the only term of its own length is itself. |
| `Numbers.DecimalDigits` | src/pages/AddProperty.tsx:90 | The decimal writing of a natural number is non-empty, all digits, has no leading zero and denotes the number. |
| `Numbers.IntToString` | src/pages/AddProperty.tsx:90-92 | `n.toString()` is non-empty and starts with '-' exactly when `n` is negative. The rest is the canonical writing of the absolute value: all digits, no leading zero, denoting it. |
| `Numbers.ParseInt` | src/pages/AddProperty.tsx:124-136 | Definition. The empty string and a string that starts with neither a digit nor a sign give `NaN`. A digit string gives the integer it denotes, and only a leading '-' gives a negative value. `ParseIntOfDigits` and `ParseIntToString` state the round trips. |
| `Numbers.ParseIntToString` | src/pages/AddProperty.tsx:90-92 | `parseInt(n.toString())` is `n` for every integer. |
| `Numbers.ParseIntOfDigits` | src/pages/Properties.tsx:62 | A digit string parses to the integer it denotes, and the empty string to `NaN`. |
| `Numbers.StripNonDigits` | src/pages/AddProperty.tsx:93 | Stripping non-digits yields only digits, in their original order. Every digit keeps its multiplicity, and every non-digit is dropped. |
| `Numbers.DecimalDigitsOfValue` | src/pages/AddProperty.tsx:127 | Writing the value of a canonical digit string gives that string back. |
| `Numbers.StripGrouped` | src/pages/AddProperty.tsx:127 | Removing the thousands separators from a grouped number restores its digits. |
| `Numbers.LocaleString` | src/pages/AddProperty.tsx:127 | `NaN` is written "NaN". An integer is written non-empty, starting with '-' exactly when negative, and its digits are the decimal digits of its absolute value. |
| `Numbers.Currency` | src/pages/AddProperty.tsx:127 | The stored amount starts with "$ " and has the same digits as the formatted number. |
| `Numbers.CurrencyDigits` | src/pages/AddProperty.tsx:127 | The digits of `"$ " + n.toLocaleString()` are the decimal digits of the absolute value of `n`. |
| `Numbers.CurrencyRoundTrip` | src/pages/AddProperty.tsx:127 | For a non-negative integer, parsing the digits of the stored amount gives the integer back. |
| `PropertiesPage.FilteredProperties` | src/pages/Properties.tsx:55-58 | The result is an order-preserving subsequence of matching records, no longer than the list. Every matching record keeps its multiplicity and no other record appears. An empty term keeps every record. |
| `PropertiesPage.FilteredMembers` | src/pages/Properties.tsx:55-58 | A record is listed exactly when it is registered and its lower-cased name or address contains the lower-cased term. |
| `PropertiesPage.SearchIgnoresCase` | src/pages/Properties.tsx:55-58 | Lower-casing the term does not change the result. |
| `PropertiesPage.RevenueValue` | src/pages/Properties.tsx:62 | A record contributes the integer written by the digits of its revenue, and 0 when there are none. |
| `PropertiesPage.TotalRevenueAppend` | src/pages/Properties.tsx:61-64 | The total is additive: one more record adds its revenue value. |
| `PropertiesPage.RevenueOfCurrency` | src/pages/Properties.tsx:61-64 | A revenue stored by the form as `"$ " + n.toLocaleString()` counts as `n`. |
| `PropertiesPage.RoundHalfUp` | src/pages/Properties.tsx:68 | `Math.round(a / n)` is the integer within one half of `a / n`, with halves rounded up. |
| `PropertiesPage.AverageOccupancy` | src/pages/Properties.tsx:67-69 | The average is 0 for an empty list, otherwise the mean occupancy rounded to the nearest integer. |
| `PropertiesPage.AverageOccupancyInRange` | src/pages/Properties.tsx:67-69 | With every occupancy in [0, 100], the average is in [0, 100]. |
| `PropertiesPage.ListingView` | src/pages/Properties.tsx:55-69 | The rows are exactly the search result. The count, the total and the average are over the whole registry. |
| `PropertiesPage.StatusStyle` | src/pages/Properties.tsx:36-43 | The grey fallback applies exactly to a status other than the three known ones. |
| `PropertiesPage.StatusLabel` | src/pages/Properties.tsx:44 | Same length, first character upper-cased, rest unchanged, so the label differs from the status only in case. |
| `PropertiesPage.KnownStatusLabels` | src/pages/Properties.tsx:36-44 | The three statuses are labelled "Loué", "Disponible" and "Maintenance". |
| `PropertiesPage.StatusLabelIdempotent` | src/pages/Properties.tsx:44 | Capitalising twice is capitalising once. |
| `PropertiesPage.HandleDelete` | src/pages/Properties.tsx:51-53 | The row's id is forwarded unchanged to the registry's delete. |
| `AddPropertyPage.WithInput` | src/pages/AddProperty.tsx:112-114 | The named input takes the value and every other input is unchanged. |
| `AddPropertyPage.AmountDigits` | src/pages/AddProperty.tsx:101-102 | An absent amount is pre-filled as "". A present amount is pre-filled with exactly its digits, in order, through `replace(/[^0-9]/g, '')`. |
| `AddPropertyPage.FloorsText` | src/pages/AddProperty.tsx:95 | Absent floors give "". Present floors give their `toString()` writing, which parses back to the number. |
| `AddPropertyPage.Prefill` | src/pages/AddProperty.tsx:86-107 | Name, address, type and status are copied, and the ten optional texts are copied with "" for an absent one. Units and occupancy are pre-filled as their `toString()` writings, and floors as `FloorsText`, all of which parse back to the record's numbers. The revenue and the two amounts are pre-filled as the digits of the stored strings. |
| `AddPropertyPage.FileDocument` | src/pages/AddProperty.tsx:141-147 | Each upload becomes a document with the file's name, url "#", the file's size and the given date. Its type is "PDF" exactly when the MIME type contains "pdf", and "IMG" otherwise. |
| `AddPropertyPage.FilesToDocuments` | src/pages/AddProperty.tsx:141-147 | There is one document per upload, in upload order. |
| `AddPropertyPage.AmountField` | src/pages/AddProperty.tsx:135-136 | An empty input gives `undefined`. Any other input gives `"$ "` followed by the formatted parsed integer. |
| `AddPropertyPage.BuildPropertyData` | src/pages/AddProperty.tsx:120-148 | `units`: the parsed integer, or 1 on 0 or `NaN`, so it is never 0. `occupancy`: the parsed integer, or 0 on `NaN`, with no clamping. `revenue`: the formatted parse of the input, or of "0" when empty. `floors`: `undefined` exactly when the input is empty, non-numeric or 0. Amounts: `undefined` exactly when empty, otherwise `"$ "` and the formatted parse. The name, address, type, status and the ten optional text inputs are copied. Documents mirror the uploads. |
| `AddPropertyPage.AmountStable` | src/pages/AddProperty.tsx:101-136 | For an empty input or a non-negative integer, storing the amount, pre-filling it and storing it again gives the same value. |
| `AddPropertyPage.RevenueDigitsRoundTrip` | src/pages/AddProperty.tsx:93-127 | A canonical digit string typed as revenue is pre-filled unchanged after saving. |
| `AddPropertyPage.ResubmitIsStable` | src/pages/AddProperty.tsx:86-148 | With a non-negative revenue and amounts, reopening a saved record and saving it untouched stores the same record, except that its documents become the new, empty upload list. |
| `AddPropertyPage.ResubmitNaNRevenue` | src/pages/AddProperty.tsx:93-127 | A non-empty revenue that `parseInt` reads as `NaN` is stored as "$ NaN" and becomes "$ 0" at the next edit. |
| `AddPropertyPage.ResubmitNaNAmount` | src/pages/AddProperty.tsx:101-136 | A non-empty amount that `parseInt` reads as `NaN` is stored as "$ NaN" and becomes `undefined` at the next edit. |
| `AddPropertyPage.ZeroRevenue` | src/pages/AddProperty.tsx:127 | An empty revenue is replaced by "0", and "0" is stored as "$ 0". |
| `AddPropertyPage.StoredRevenue` | src/pages/AddProperty.tsx:127 | A revenue input that parses to `n` is stored as `"$ "` and the formatted `n`. |
| `AddPropertyPage.PrefilledRevenue` | src/pages/AddProperty.tsx:93 | A stored revenue for `n` is pre-filled as the decimal digits of the absolute value of `n`. |
| `AddPropertyPage.PrefilledNaNRevenue` | src/pages/AddProperty.tsx:93 | A stored "$ NaN" revenue is pre-filled as "". |
| `AddPropertyPage.ResubmitDropsSign` | src/pages/AddProperty.tsx:93-127 | A negative revenue is stored with its sign and loses it at the next edit. |
| `AddPropertyPage.MergeWholeRecord` | src/pages/AddProperty.tsx:153-154 | Merging a whole submitted record replaces every attribute but the id. |
| `AddPropertyPage.Submitted` | src/pages/AddProperty.tsx:153-157 | With a route id the length is kept, otherwise one record is appended under the new id with the submitted data. Every earlier record keeps its id. |
| `AddPropertyPage.SubmitEdit` | src/pages/AddProperty.tsx:153-157 | With a route id, every record with that id becomes exactly the submitted record under its id. Every other record is unchanged. |
| `AddPropertyPage.EditWithoutUploadsClearsDocuments` | src/pages/AddProperty.tsx:141-157 | Editing a registered record without uploads leaves it with an empty document list. |
| `AddPropertyPage.SubmitCreate` | src/pages/AddProperty.tsx:153-157 | Without a route id, the record is appended under the fresh id, the earlier records stay in place, and the new id finds it. |
| `AddPropertyPage.CanSave` | src/pages/AddProperty.tsx:206 | Saving is possible exactly when no save is running and both the name input and the address input are non-empty. |
| `AddPropertyPage.TypingEnablesSave` | src/pages/AddProperty.tsx:206 | A new form cannot be saved. Typing a name and an address enables saving, and a running save disables it. |
| `AddPropertyPage.ClearingDisablesSave` | src/pages/AddProperty.tsx:206 | Clearing the name or the address input disables saving, for any form and either state of the save flag. |
| `AddPropertyPage.AddPropertyPage.constructor` | src/pages/AddProperty.tsx:56-80 | The page starts with the initial form, no uploads and no save running. |
| `AddPropertyPage.AddPropertyPage.LoadForEdit` | src/pages/AddProperty.tsx:82-110 | With a route id naming a registered record, the form is that record's pre-fill. Otherwise the form is unchanged. |
| `AddPropertyPage.AddPropertyPage.HandleInputChange` | src/pages/AddProperty.tsx:112-114 | Only the named input changes. |
| `AddPropertyPage.AddPropertyPage.HandleFileUpload` | src/pages/AddProperty.tsx:163-171 | New files go after the pending ones. |
| `AddPropertyPage.AddPropertyPage.RemoveFile` | src/pages/AddProperty.tsx:173-175 | Exactly the file at the index is removed. |
| `AddPropertyPage.AddPropertyPage.HandleSubmit` | src/pages/AddProperty.tsx:116-161 | The form is converted with the pending uploads. With a route id the record is updated, otherwise it is added. The submitting flag ends cleared. |
| `DocumentsPage.DocumentIcon` | src/pages/PropertyDocuments.tsx:50-58 | "PDF", "ZIP", "DOC" and "IMG" have their own icons. Exactly the other types get the generic icon. |
| `DocumentsPage.OrText` | src/pages/PropertyDocuments.tsx:247-259 | An absent or empty text falls back to the default. |
| `DocumentsPage.DocumentRow` | src/pages/PropertyDocuments.tsx:245-260 | A missing or empty type is shown as a PDF. A missing or empty size is shown as "N/A" and a missing or empty date as today. A present, non-empty size or date is shown as it is. |
| `DocumentsPage.DocumentList` | src/pages/PropertyDocuments.tsx:60 | A record without documents has an empty list. |
| `DocumentsPage.FilteredDocuments` | src/pages/PropertyDocuments.tsx:61-63 | The result is an order-preserving subsequence of documents whose lower-cased name contains the lower-cased term. Every matching document keeps its multiplicity and no other document appears. An empty term keeps them all. |
| `DocumentsPage.FilteredDocumentsMembers` | src/pages/PropertyDocuments.tsx:61-63 | A document is listed exactly when it is in the list and matches. |
| `DocumentsPage.Categories` | src/pages/PropertyDocuments.tsx:133-182 | Each card's count is at most the total. |
| `DocumentsPage.OthersCount` | src/pages/PropertyDocuments.tsx:176-182 | "Autres" is the total minus the documents whose name contains one of the five keywords, case-sensitively. |
| `DocumentsPage.CategoriesCoverAll` | src/pages/PropertyDocuments.tsx:133-182 | The four counts add up to at least the total. |
| `DocumentsPage.LowercasePlanCountedTwice` | src/pages/PropertyDocuments.tsx:148-182 | A name with a lower-case "plan" and no keyword counts both as a plan and as "Autres". |
| `DocumentsPage.PlanIsCountedTwice` | src/pages/PropertyDocuments.tsx:148-182 | A document named "plan" is counted by two cards. |
| `DocumentsPage.View` | src/pages/PropertyDocuments.tsx:35-63 | Not-found exactly when the lookup of the route id fails, with an absent id looked up as "". Otherwise it shows the record, its document total and the category counts. The i-th row is the display row of the i-th matching document. |
| `DocumentsPage.NoDocumentsView` | src/pages/PropertyDocuments.tsx:60-114 | A record without documents shows a total of 0, no rows and zero counts. |

## Left out

- Rendering, JSX, animations and navigation. `navigate` calls are not modelled, and neither is the choice of page per route (src/App.tsx, src/pages/DashboardLayout.tsx).
- The context-provider check in `useProperties` (src/context/PropertyContext.tsx:188-194). It only fires when a page is rendered outside the provider.
- Fixed data and charts: the dashboard, finance and map pages, the charts and the static property list hold only literals or call libraries that are not part of this model.
- src/pages/PropertyDetails.tsx and src/pages/UserSelection.tsx. The first repeats the not-found guard and the digit parse modelled here, and its delete button makes the same `DeleteProperty` call as the listing's; the second is a click and a timed navigation.
- Clock values are parameters: the new record's id (`Date.now().toString()`), the upload date (`new Date().toISOString()`) and the date shown for an undated document.
- The one-second simulated save delay (src/pages/AddProperty.tsx:151). The intermediate state in which `isSubmitting` is true is not observable in `HandleSubmit`'s contract, only the final state.
- The uploaded file's size in MB (`toFixed(2)`, floating point). It arrives as a ready-made string in `UploadedFile.size`.
- `Math.round(a / n)` is modelled on exact rationals. The model leaves out the rounding of the floating-point division and all precision loss above 2^53, both in `parseInt` and in the sums.
- `parseInt` is modelled as an optional sign followed by the longest run of decimal digits. It does not skip leading whitespace, and it does not model hexadecimal prefixes or `-0`.
- `toLocaleString` is modelled with the ',' thousands separator of an English locale. Other locales are not modelled.
- `toLowerCase`/`toUpperCase` map only ASCII and Latin-1 letters. Other Unicode case mappings are left out, including ones that change the length, such as 'ß' upper-casing to "SS". Upper-casing therefore leaves 'ß', 'ÿ' and 'µ' unchanged, although JavaScript maps them to "SS", 'Ÿ' and 'Μ'.
- The `status` field is an arbitrary string. The source's type restricts it to three values, and the badge lookup already handles any string.
- Lookups in the style and icon tables ignore keys inherited from `Object.prototype` (such as "constructor"), which JavaScript would find.
- `Registry.PropertyStore.AddProperty`: does not require the new id to be fresh, because the source does not check it. Freshness is a precondition of the round-trip lemmas instead.
- A partial update that sets a required attribute to `undefined` cannot be expressed. The form never sends one: every required key it sends has a value.
- `PropertiesPage.TotalRevenue` carries no contract of its own. Its meaning is stated by `RevenueValue`, `TotalRevenueAppend` and `RevenueOfCurrency`.
