# PharmaPin core, modelled in Dafny

PharmaPin links patients with pharmacies that stock the drugs they look for.
This project models its core in Dafny and proves properties of the model:

- **Inventory** (`inventory.dfy`, `inventory_drugs.dfy`, `manage_inventory.dfy`).
  - The per-(pharmacy, drug) stock record: its validators and defaults, the discounted price and the low-stock check.
  - The collection under its unique (pharmacy, drug) index.
  - The pharmacist's two inventory screens: the search and category filters, the stock classification, the markers and the edit form.
- **Pharmacies** (`pharmacy.dfy`, `onboarding.dfy`, `admin.dfy`, `pharmacy_location.dfy`, `approval_lifecycle.dfy`).
  - The pharmacy document and the collection, with one pharmacy per owner and unique licence numbers.
  - The owner's profile submission, the administrator's approval and rejection, the listings and counts, and the location routes.
  - The approval lifecycle as a state machine. Every sequence of requests keeps "verified exactly when approved".
- **Drug catalogue** (`drug.dfy`, `drug_routes.dfy`, `drug_class_manager.dfy`).
  - The drug schema: enums, length limits, trimming and defaults.
  - The catalogue routes: list with filters, sorting and pagination; lookup; create; update; soft delete; advanced search.
  - The pharmacist's category tabs and the add-drug form with its payload cleaning.
- **Patient side** (`geo.dfy`, `drug_details.dfy`, `axios_setup.dfy`).
  - Where the map places a pharmacy.
  - The drug details page: quantity counter, total, delivery terms, address and hours lines, order routing.
  - The HTTP client's base URL and its rewrite of absolute development-server URLs.

Shared vocabulary is in `common.dfy`: options and results, callers and roles, string helpers and the `Filter` used by every listing.

State that the source updates in place is modelled as classes:

- the inventory collection (a map keyed by pharmacy and drug);
- the pharmacy collection and the drug catalogue (sequences, where a document's position is its id and stands for its creation time);
- the quantity counter;
- the interceptor's request configuration.

The routes are methods over these classes, proved against pure functions that say what each write does. Loops in the source (the lookups, the listing walk, the counts, the key deletion in the payload cleaning) are methods whose loop invariants tie them to the same functions.

Conventions:

- Mongoose validators run before the unique index.
- A key left `undefined` in an update is not written.
- Request parsing (`parseFloat`, MongoDB `$text` matching, `encodeURIComponent`) is passed in as a function parameter.

## Model

| member | source | states |
|---|---|---|
| Common.ToLower | frontend/src/components/Pharmacist/InventoryDrugs.jsx:32-33 | `toLowerCase`: same length, every character mapped to lower case |
| Common.Trim | backend/models/Drug.js:7 | the `trim` setter: the input minus its leading and trailing white space, where white space is what JavaScript's `trim` removes (including vertical tab, form feed, no-break space, the byte-order mark and the Unicode space separators and line terminators); the result neither starts nor ends with white space and everything dropped is white space |
| Common.Utf16Length | backend/models/Drug.js:8 | JavaScript's `length`, which `maxlength` measures: at least the number of characters and at most twice it; equal to it iff no character lies above U+FFFF, twice it when every character does |
| Common.Filter | frontend/src/components/Pharmacist/InventoryDrugs.jsx:31 | `Array.filter`: an order-preserving subsequence holding exactly the kept elements, each as often as in the input |
| Common.FilterAppendOne | frontend/src/components/Pharmacist/InventoryDrugs.jsx:31 | filtering a list extended by one element gives the earlier result, extended by that element exactly when it is kept |
| InventoryModel.NewRecord | backend/models/Inventory.js:14-50 | a new record is saved iff every validator passes after defaults; omitted fields default to quantity 0, discount 0, available, min 10, max 100; a refusal names the failing paths (price and discount exactly when out of range) |
| InventoryModel.ResaveIsIdentity | backend/models/Inventory.js:14-50 | saving a valid record again yields that record: defaults never override stored values |
| InventoryModel.DiscountedPrice | backend/models/Inventory.js:64-66 | with a valid record, 0 ≤ discounted price ≤ price; equal to the price at discount 0 and 0 at discount 100 |
| InventoryModel.DiscountBounds | backend/models/Inventory.js:64-66 | `price × (1 − discount/100)` lies in [0, price] for a non-negative price and a discount in [0,100] |
| InventoryModel.DiscountLowersPrice | backend/models/Inventory.js:64-66 | a valid record is sold below its price exactly when the discount and the price are positive |
| InventoryModel.EmptyIsLowStock | backend/models/Inventory.js:69-71 | `isLowStock` holds for every valid record with quantity 0, since thresholds are non-negative |
| InventoryModel.InventoryCollection.Find | backend/models/Inventory.js:57 | finds the record of a pair exactly when the pair is stored |
| InventoryModel.InventoryCollection.Insert | backend/models/Inventory.js:57 | validation first; a second record for a stored pair is refused and nothing changes; otherwise exactly that pair is added; every stored record stays valid and keyed by its own pair |
| InventoryModel.InventoryCollection.Update | backend/models/Inventory.js:14-50 | an unknown pair or a failed validation changes nothing; otherwise the patched record replaces the stored one |
| InventoryModel.InsertKeepsUniqueRecords | backend/models/Inventory.js:57 | an insert under a fresh pair adds one record and keeps every other |
| InventoryDrugsView.GetStockStatus | frontend/src/components/Pharmacist/InventoryDrugs.jsx:38-42 | out of stock iff quantity 0; low stock iff non-zero and ≤ minimum; in stock iff non-zero and above it |
| InventoryDrugsView.StatusAgreesWithLowStock | frontend/src/components/Pharmacist/InventoryDrugs.jsx:38-42 | for a stored record, in stock exactly when `isLowStock` fails; out of stock implies low stock |
| InventoryDrugsView.FilteredInventory | frontend/src/components/Pharmacist/InventoryDrugs.jsx:31-36 | an order-preserving subsequence; an item is kept iff the lower-cased term occurs in its lower-cased name or generic name and the category is 'all' or the drug's; a kept item appears as often as in the input |
| InventoryDrugsView.UnfilteredShowsNamedItems | frontend/src/components/Pharmacist/InventoryDrugs.jsx:32-34 | with an empty term and 'all', every item whose drug has a name is listed |
| InventoryDrugsView.OriginalPriceShownWhenReduced | frontend/src/components/Pharmacist/InventoryDrugs.jsx:129-133 | for a record with a positive price, the original-price row shows exactly when the discounted price is lower |
| ManageInventoryView.FilteredInventory | frontend/src/components/Pharmacist/ManageInventory.jsx:47-50 | an order-preserving subsequence; kept iff the term occurs in the name or generic name; a kept item appears as often as in the input |
| ManageInventoryView.SameAsGridUnderAll | frontend/src/components/Pharmacist/ManageInventory.jsx:47-50 | keeps exactly what the grid keeps under category 'all' |
| ManageInventoryView.MarkerIsLowStock | frontend/src/components/Pharmacist/ManageInventory.jsx:103-104 | the warning marker shows iff the record is low on stock, iff the grid does not call it in stock |
| ManageInventoryView.DiscountRowIsReduction | frontend/src/components/Pharmacist/ManageInventory.jsx:113-118 | the discount row shows for the same stored records as the grid's original price, iff the edit form starts from a non-zero discount, and, for a record with a price, iff it sells below that price |
| ManageInventoryView.BeforeFirstT | frontend/src/components/Pharmacist/ManageInventory.jsx:167 | `split('T')[0]`: the longest prefix without 'T', followed in the input by a 'T' or the end |
| ManageInventoryView.InitialForm | frontend/src/components/Pharmacist/ManageInventory.jsx:163-171 | the edit form holds exactly the seven fields, copied unchanged except the expiry date, cut before its first 'T' |
| ManageInventoryView.HandleInputChange | frontend/src/components/Pharmacist/ManageInventory.jsx:181-187 | only the named field changes: a checkbox stores its checked flag, any other input its raw text |
| PharmacyModel.ParseStatus | backend/models/Pharmacy.js:57-61 | the status enum accepts exactly the four names and round-trips with their spelling |
| PharmacyModel.NewPharmacy | backend/models/Pharmacy.js:36-61 | a new document is a draft, not verified, active, with subscription 'none' and inactive, and no rejection or approval record |
| PharmacyModel.IndexOfOwner | backend/routes/pharmacyOnboarding.js:13 | `findOne({ owner })`: the first document of the owner, or none when the owner has none |
| PharmacyModel.PharmacyCollection.FindByOwner | backend/routes/pharmacyOnboarding.js:13 | the lookup loop returns `IndexOfOwner`, and it is the owner's only document |
| PharmacyModel.PharmacyCollection.LicenseHolder | backend/models/Pharmacy.js:14-18 | finds another document holding the licence number exactly when one exists |
| PharmacyModel.PharmacyCollection.Insert | backend/models/Pharmacy.js:4-18 | a document without name or licence number is refused, a taken licence is refused, and neither changes anything; otherwise it is appended; the collection invariants hold |
| PharmacyModel.PharmacyCollection.Replace | backend/routes/pharmacyOnboarding.js:81-85 | `findByIdAndUpdate` with validators: refused on a failed validator or a licence held by another document, with no change; otherwise exactly that document is replaced |
| PharmacyModel.PharmacyCollection.Store | backend/routes/pharmacyLocation.js:50 | a write that keeps name, licence and owner replaces exactly that document and keeps the invariants |
| PharmacyOnboarding.Submitted | backend/routes/pharmacyOnboarding.js:61-77 | a submission leaves the pharmacy pending and unverified; it keeps owner, rejection reason, approval record and subscription; coordinates default to [0,0]; the name is trimmed; licence, e-mail, phone, address, hours, services, description and certificates take the submitted value and keep the stored one when omitted; the document passes the validators iff name and licence are non-empty |
| PharmacyOnboarding.Created | backend/routes/pharmacyOnboarding.js:86-91 | a first submission is owned by the caller, pending and unverified, with the schema defaults, and valid iff the trimmed name and the licence are non-empty |
| PharmacyOnboarding.Status | backend/routes/pharmacyOnboarding.js:7-30 | non-pharmacists are refused; no pharmacy gives `hasPharmacy` false and 'no_pharmacy'; otherwise true with the stored status |
| PharmacyOnboarding.CompleteProfile | backend/routes/pharmacyOnboarding.js:33-109 | non-pharmacists are refused; an approved pharmacy cannot be resubmitted; an invalid or duplicate profile changes nothing; otherwise the owner's pharmacy is overwritten or a first one created |
| PharmacyOnboarding.Profile | backend/routes/pharmacyOnboarding.js:112-128 | non-pharmacists are refused; not found without a pharmacy; otherwise the owner's pharmacy |
| AdminRoutes.ApprovedBy | backend/routes/admin.js:42-51 | approved and verified, approver and time recorded, whatever the prior status; every other field is unchanged |
| AdminRoutes.RejectedFor | backend/routes/admin.js:70-80 | rejected and unverified; the supplied reason is stored, and without one the earlier reason stays; every other field is unchanged |
| AdminRoutes.Approve | backend/routes/admin.js:40-65 | an unknown id is not found and changes nothing; otherwise exactly that pharmacy is approved |
| AdminRoutes.Reject | backend/routes/admin.js:68-94 | an unknown id is not found and changes nothing; otherwise exactly that pharmacy is rejected |
| AdminRoutes.Reversed | backend/routes/admin.js:12 | newest first: the documents in reverse creation order |
| AdminRoutes.ReversedIsPermutation | backend/routes/admin.js:12 | reversing keeps every document as often as it was |
| AdminRoutes.WithStatus | backend/routes/admin.js:10-12 | exactly the documents with the status, newest first, each as often as stored |
| AdminRoutes.ListByStatus | backend/routes/admin.js:10-12 | the listing loop, walking from the newest document, returns `WithStatus` |
| AdminRoutes.Pending | backend/routes/admin.js:8-21 | exactly the pending pharmacies, newest first |
| AdminRoutes.ApprovedList | backend/routes/admin.js:24-37 | exactly the approved pharmacies, newest first |
| AdminRoutes.PendingAndApprovedWithinTotal | backend/routes/admin.js:99-113 | pending plus approved never exceeds the total |
| AdminRoutes.PatientsAndPharmacistsWithinUsers | backend/routes/admin.js:108-110 | patients plus pharmacists never exceed the users |
| AdminRoutes.CountUsers | backend/routes/admin.js:108-110 | the counting loop gives the number of users and the `countDocuments` counts of patients and pharmacists |
| AdminRoutes.Stats | backend/routes/admin.js:96-129 | the total, pending and approved pharmacy counts and the total, patient and pharmacist user counts; each pair of parts stays within its total |
| PharmacyLocation.Located | backend/routes/pharmacyLocation.js:33-48 | the point becomes [longitude, latitude], the address coordinates {lat, lng}, the address text only when one is given, `locationSet` true; nothing else changes |
| PharmacyLocation.IndexOfApproved | backend/routes/pharmacyLocation.js:21-24 | `findOne({ owner, status: 'approved' })`: the first approved document of the owner, or none |
| PharmacyLocation.ApprovedLookupIsOwnersPharmacy | backend/routes/pharmacyLocation.js:21-30 | with one pharmacy per owner, the approved lookup finds the owner's pharmacy exactly when it is approved |
| PharmacyLocation.FindApproved | backend/routes/pharmacyLocation.js:21-24 | the lookup loop returns `IndexOfApproved` |
| PharmacyLocation.SetLocation | backend/routes/pharmacyLocation.js:8-64 | role check; a missing or zero coordinate is refused before any lookup; not found unless approved; otherwise exactly that pharmacy is located; no change on any refusal |
| PharmacyLocation.LocationStatus | backend/routes/pharmacyLocation.js:67-91 | role check; not found without a pharmacy; otherwise its flag, point and address |
| PharmacyLifecycle.Step | backend/routes/admin.js:42-80 | every request keeps "verified only if approved" and "verified iff approved" and the owner; only a rejection leaves the approved status; only a located approved pharmacy changes `locationSet` |
| PharmacyLifecycle.ReplayKeepsVerifiedIffApproved | backend/routes/admin.js:44-77 | any sequence of submissions, approvals, rejections and location requests keeps "verified iff approved" |
| PharmacyLifecycle.ReplayKeepsVerifiedOnlyIfApproved | backend/routes/pharmacyOnboarding.js:75-76 | any sequence of requests keeps "verified only if approved" |
| PharmacyLifecycle.CreatedPharmacyStaysConsistent | backend/routes/pharmacyOnboarding.js:86-91 | a pharmacy created by a submission is verified iff approved after any sequence of requests |
| PharmacyLifecycle.ApprovalLeftOnlyByRejection | backend/routes/pharmacyOnboarding.js:55-59 | without a rejection, an approved pharmacy stays approved |
| DrugModel.ParseCategory | backend/models/Drug.js:24-33 | the category enum accepts exactly the listed names and round-trips with their spelling |
| DrugModel.CategoriesListed | backend/models/Drug.js:27-32 | the enum lists 15 distinct categories, every category once |
| DrugModel.ParseForm | backend/models/Drug.js:34-38 | the form enum accepts exactly the nine names and round-trips with their spelling |
| DrugModel.TrimmedOpt | backend/models/Drug.js:10-19 | an optional field stays present or absent and is never lengthened by trimming |
| DrugModel.Setters | backend/models/Drug.js:4-19 | name, generic name and brand are trimmed; every other field is unchanged |
| DrugModel.ViolationsAreRefusedPaths | backend/models/Drug.js:4-38 | the reported paths are exactly those whose validator refuses the value |
| DrugModel.NewDrug | backend/models/Drug.js:3-58 | a drug is created iff every validator accepts the trimmed input, lengths counted in UTF-16 code units; the error is the non-empty set of failing paths; the drug keeps the trimmed name, generic name and brand, the description, category and form as given, and defaults to no prescription, active, no strength |
| DrugModel.BlankNameRefused | backend/models/Drug.js:4-9 | a name of only white space (any character `trim` removes) fails the required check after trimming |
| DrugModel.AstralNameRefused | backend/models/Drug.js:4-9 | a name of 60 emoji, 60 characters but 120 UTF-16 code units, is refused by the 100-unit limit |
| DrugModel.RebuildIsIdentity | backend/models/Drug.js:3-58 | a valid, trimmed drug resubmitted as input is recreated unchanged |
| DrugModel.UpdateViolations | backend/routes/drugs.js:97-101 | an update is refused on exactly the supplied paths whose validator fails, lengths counted in UTF-16 code units |
| DrugModel.PatchKeepsValid | backend/routes/drugs.js:97-101 | a valid drug patched with accepted fields stays valid and takes the supplied name, category and form |
| DrugModel.EmptyPatchIsIdentity | backend/routes/drugs.js:97-101 | an update with no fields leaves the drug as it was |
| DrugRoutes.Flag | backend/routes/drugs.js:52-55 | a supplied flag is true only for the string 'true'; an absent one adds no filter |
| DrugRoutes.ListQuery | backend/routes/drugs.js:35-55 | a drug matches iff it is active and meets the text search, category, form and prescription filters that were given |
| DrugRoutes.AdvancedQuery | backend/routes/drugs.js:146-170 | a drug matches iff it is active, the query occurs case-insensitively in one of four text fields, the given filters hold, and its strength lies in the given inclusive bounds |
| DrugRoutes.Matching | backend/routes/drugs.js:57 | exactly the catalogue drugs the query matches |
| DrugRoutes.NameLeqTotal | backend/routes/drugs.js:60 | any two names are ordered one way or the other |
| DrugRoutes.InsertByName | backend/routes/drugs.js:60 | inserting into a name-sorted list keeps it sorted and adds exactly that drug |
| DrugRoutes.SortByName | backend/routes/drugs.js:60 | `sort({ name: 1 })`: sorted by name and a permutation of the input |
| DrugRoutes.Window | backend/routes/drugs.js:57-59 | `skip` then `limit`: a contiguous slice starting at the skip, at most \|limit\| long, full when enough remain; limit 0 means no limit |
| DrugRoutes.TotalPagesIsCeiling | backend/routes/drugs.js:66 | totalPages is the least page count whose pages hold all matches |
| DrugRoutes.PageOf | backend/routes/drugs.js:58-66 | the k-th match lies on page k / limit + 1, which is within totalPages |
| DrugRoutes.WindowAt | backend/routes/drugs.js:58-59 | the window's element at offset r is the input's element at skip + r |
| DrugRoutes.EveryMatchOnItsPage | backend/routes/drugs.js:57-69 | every match appears on exactly the page its position says, and that page exists |
| DrugRoutes.ListDrugs | backend/routes/drugs.js:24-73 | an omitted page is 1 and an omitted limit 20; a negative skip is a server error; otherwise the sorted page of the matches, the match count and totalPages; the page is sorted, bounded by the limit and holds active catalogue drugs |
| DrugRoutes.WindowKeepsOrderAndMembers | backend/routes/drugs.js:57-60 | a page of a sorted list is sorted and holds only its elements |
| DrugRoutes.GetById | backend/routes/drugs.js:76-88 | found iff the id exists and the drug is active; otherwise not found |
| DrugRoutes.Create | backend/routes/drugs.js:8-21 | non-admins are refused; an invalid drug is refused with its failing paths; either way nothing changes; otherwise exactly the new drug is appended |
| DrugRoutes.Update | backend/routes/drugs.js:91-111 | non-admins are refused; validators run before the lookup; an unknown id is not found; otherwise the patched drug replaces exactly that one |
| DrugRoutes.Delete | backend/routes/drugs.js:114-132 | non-admins are refused; an unknown id is not found; otherwise the drug is kept and only marked inactive |
| DrugRoutes.DeletedDrugIsHidden | backend/routes/drugs.js:125-126 | a deleted drug matches no query and lookups of it fail |
| DrugRoutes.AdvancedSearch | backend/routes/drugs.js:135-180 | the first 50 matches by name: sorted, at most 50, all active catalogue drugs |
| DrugRoutes.SmallResultIsComplete | backend/routes/drugs.js:172-174 | with at most 50 matches the advanced search returns all of them |
| DrugClassManager.CategoryDisplayName | frontend/src/components/Pharmacist/DrugClassManager.jsx:42-44 | same length; the first character upper-cased, the rest unchanged |
| DrugClassManager.DisplayNameRecoversCategory | frontend/src/components/Pharmacist/DrugClassManager.jsx:42-44 | lower-casing the label of a lower-case category gives the category back |
| DrugClassManager.CategoryNameInjective | backend/models/Drug.js:27-32 | distinct categories have distinct names |
| DrugClassManager.TabsAreTheCategoryEnum | frontend/src/components/Pharmacist/DrugClassManager.jsx:12-17 | the tab list is the schema's category enum, in the same order |
| DrugClassManager.TabIffValidCategory | frontend/src/components/Pharmacist/DrugClassManager.jsx:12-17 | a string is a tab exactly when the schema accepts it as a category |
| DrugClassManager.TabsDistinct | frontend/src/components/Pharmacist/DrugClassManager.jsx:12-17 | no tab is listed twice |
| DrugClassManager.TabsAreLowerCase | frontend/src/components/Pharmacist/DrugClassManager.jsx:12-17 | every tab name is lower case |
| DrugClassManager.TabLabelsDistinct | frontend/src/components/Pharmacist/DrugClassManager.jsx:81 | no two tabs show the same label |
| DrugClassManager.FilterCountsCategory | frontend/src/components/Pharmacist/DrugClassManager.jsx:83 | filtering the drugs by a tab keeps as many drugs as the tab's name occurs among their category names |
| DrugClassManager.TabCount | frontend/src/components/Pharmacist/DrugClassManager.jsx:83 | a tab's count is the number of occurrences of the tab among the loaded drugs' category names, at most the number loaded |
| DrugClassManager.OwnTabOnce | frontend/src/components/Pharmacist/DrugClassManager.jsx:12-17 | every category has exactly one tab |
| DrugClassManager.TabCountsPartitionDrugs | frontend/src/components/Pharmacist/DrugClassManager.jsx:83 | the tab counts add up to the number of loaded drugs: each drug is counted in exactly one tab |
| DrugClassManager.DefaultForm | frontend/src/components/Pharmacist/DrugClassManager.jsx:168-184 | the add-drug form starts with empty texts, the given category, form 'tablet', an empty strength, no prescription and no side effects |
| DrugClassManager.HandleStrengthChange | frontend/src/components/Pharmacist/DrugClassManager.jsx:215-223 | only the strength's named field changes: the value becomes the parsed number, or '' when that is falsy; the unit is stored raw; the rest of the form is unchanged |
| DrugClassManager.Prepared | frontend/src/components/Pharmacist/DrugClassManager.jsx:234-237 | the strength is sent only when its value is truthy; every other field is copied |
| DrugClassManager.RemoveEmptyFields | frontend/src/components/Pharmacist/DrugClassManager.jsx:240-244 | the deletion loop removes exactly the keys holding '', null or undefined and leaves every other value unchanged |
| DrugClassManager.SubmissionPayload | frontend/src/components/Pharmacist/DrugClassManager.jsx:233-244 | the payload has the strength iff its value is truthy, keeps every other non-blank field unchanged and holds no blank value |
| DrugClassManager.DefaultPayloadFields | frontend/src/components/Pharmacist/DrugClassManager.jsx:234-244 | an untouched form sends no strength and no name, but does send the prescription flag and side effects, and the category iff one was given |
| DrugClassManager.ResetForm | frontend/src/components/Pharmacist/DrugClassManager.jsx:254-267 | after an add the form is back to its initial contents with the same category |
| Geo.Usable | frontend/src/utils/geo.js:8-13 | a pair is usable iff both are numbers and not both zero |
| Geo.FromLocation | frontend/src/utils/geo.js:6-16 | the GeoJSON source offers a point only for an array, read as [lng, lat] |
| Geo.FromAddress | frontend/src/utils/geo.js:19-30 | the address source offers a point only for an object or an array under `address.coordinates` |
| Geo.FromFlat | frontend/src/utils/geo.js:33-38 | the flat fields `latitude ?? lat` and `longitude ?? lng` |
| Geo.GetLatLngFromPharmacy | frontend/src/utils/geo.js:2-42 | no pharmacy gives no point, and the point is never (0,0) |
| Geo.SourcesInOrder | frontend/src/utils/geo.js:2-42 | GeoJSON wins when usable, then the address, then the flat fields; no point iff no source offers one |
| Geo.GeoJsonWins | frontend/src/utils/geo.js:6-16 | a GeoJSON array of two numbers, not both zero, decides the answer whatever else the pharmacy holds |
| Geo.AddressNamesInOrder | frontend/src/utils/geo.js:21-22 | an address object offers `lat` before `latitude` and `lng` before `longitude`; an address array is read as [lng, lat] |
| Geo.NonNumbersSkipped | frontend/src/utils/geo.js:23-35 | a source whose latitude or longitude is not a number offers nothing |
| Geo.ValidIffPoint | frontend/src/utils/geo.js:44-46 | a missing pharmacy has no valid coordinates; otherwise `hasValidCoordinates` holds iff the GeoJSON point, the address coordinates or the flat fields offer a usable pair |
| Geo.ShapeOf | backend/routes/pharmacyLocation.js:33-46 | a stored pharmacy seen by the lookup: the GeoJSON array holds the stored numbers |
| Geo.LocatedPharmacyIsOnTheMap | backend/routes/pharmacyLocation.js:33-46 | a pharmacy placed by the location route has valid coordinates and is shown at exactly the latitude and longitude it was given |
| AxiosSetup.ResolveBaseUrl | frontend/src/utils/axiosSetup.js:10-15 | `VITE_API_URL` when non-empty, else the runtime override when a window exists and it is set, else ''; '' exactly when neither applies |
| AxiosSetup.FirstOccurrenceFrom | frontend/src/utils/axiosSetup.js:24 | the first position at or after `from` where the pattern occurs, or none |
| AxiosSetup.ReplaceFirst | frontend/src/utils/axiosSetup.js:24 | `String.replace` with a string pattern: the first occurrence is replaced; without one the string is unchanged |
| AxiosSetup.ReplaceLeadingPrefix | frontend/src/utils/axiosSetup.js:23-26 | replacing a leading prefix by nothing removes exactly that prefix |
| AxiosSetup.Rewritten | frontend/src/utils/axiosSetup.js:21-27 | a URL starting with `http://localhost:5000`, else with `https://localhost:5000`, loses exactly that prefix; any other URL is unchanged |
| AxiosSetup.PrefixesExclusive | frontend/src/utils/axiosSetup.js:23-27 | no URL starts with both prefixes |
| AxiosSetup.RewrittenIsShorterSuffix | frontend/src/utils/axiosSetup.js:23-27 | a changed URL is a strictly shorter suffix of the original; a URL is unchanged iff it has neither prefix |
| AxiosSetup.DevelopmentUrlBecomesRelative | frontend/src/utils/axiosSetup.js:17-27 | an absolute development URL of either scheme becomes its path, and a path is left as it is |
| AxiosSetup.RewriteUrl | frontend/src/utils/axiosSetup.js:20-28 | only a non-empty string URL is rewritten; a missing, empty or non-string URL is left alone |
| AxiosSetup.Intercept | frontend/src/utils/axiosSetup.js:18-35 | returns the same configuration object, with only its URL rewritten |
| DrugDetails.QuantitySelector.constructor | frontend/src/components/Patient/DrugDetails/DrugDetails.jsx:10 | the quantity starts at 1 |
| DrugDetails.QuantitySelector.Decrement | frontend/src/components/Patient/DrugDetails/DrugDetails.jsx:118 | `max(1, q − 1)`; the quantity stays ≥ 1 |
| DrugDetails.QuantitySelector.Increment | frontend/src/components/Patient/DrugDetails/DrugDetails.jsx:124 | `q + 1`; the quantity stays ≥ 1 |
| DrugDetails.Stepped | frontend/src/components/Patient/DrugDetails/DrugDetails.jsx:117-124 | "+" adds one; "−" subtracts one above 1 and never goes below 1 |
| DrugDetails.QuantityBounds | frontend/src/components/Patient/DrugDetails/DrugDetails.jsx:117-124 | after any clicks, 1 ≤ quantity ≤ 1 + number of "+" clicks |
| DrugDetails.DecrementDisabledWhenUseless | frontend/src/components/Patient/DrugDetails/DrugDetails.jsx:118-119 | "−" is disabled exactly when clicking it would change nothing |
| DrugDetails.TotalPrice | frontend/src/components/Patient/DrugDetails/DrugDetails.jsx:51 | price × quantity, at least the unit price for a non-negative price and quantity ≥ 1 |
| DrugDetails.TotalFollowsCounter | frontend/src/components/Patient/DrugDetails/DrugDetails.jsx:51 | each "+" adds one unit price; each effective "−" takes one off |
| DrugDetails.DeliveryTerms | frontend/src/components/Patient/DrugDetails/DrugDetails.jsx:155-156 | same day iff under 5 km; fee 100 iff same day, 200 otherwise |
| DrugDetails.NearerIsNoWorse | frontend/src/components/Patient/DrugDetails/DrugDetails.jsx:155-156 | a nearer pharmacy never costs more and never delivers later |
| DrugDetails.AddressLine | frontend/src/components/Patient/DrugDetails/DrugDetails.jsx:29-33 | a string as it is; an object's non-empty address plus ", city" when the city is non-empty; none otherwise |
| DrugDetails.AddressDisplay | frontend/src/components/Patient/DrugDetails/DrugDetails.jsx:86-92 | the address line, or 'Address not provided' |
| DrugDetails.DirectionsDestination | frontend/src/components/Patient/DrugDetails/DrugDetails.jsx:29-33 | the address line, or '' |
| DrugDetails.MapsUrl | frontend/src/components/Patient/DrugDetails/DrugDetails.jsx:34 | the directions link is the maps prefix followed by the encoded destination |
| DrugDetails.LinkDeterminesDestination | frontend/src/components/Patient/DrugDetails/DrugDetails.jsx:34 | two links are equal exactly when the encoded destinations are |
| DrugDetails.AddressDisplaysAgree | frontend/src/components/Patient/DrugDetails/DrugDetails.jsx:29-92 | page and link show the same text; without one, the page shows the notice and the link gets '' |
| DrugDetails.HoursDisplay | frontend/src/components/Patient/DrugDetails/DrugDetails.jsx:95-101 | a string as it is; an object as open, ' - ', closing, with the separator only when both are non-empty; 'Hours not available' without hours |
| DrugDetails.SeparatorOnlyBetweenParts | frontend/src/components/Patient/DrugDetails/DrugDetails.jsx:99 | with one part missing the line is the other part alone |
| DrugDetails.FirstGiven | frontend/src/components/Patient/DrugDetails/DrugDetails.jsx:84 | `a \|\| b \|\| fallback` over two optional strings |
| DrugDetails.OrderNow | frontend/src/components/Patient/DrugDetails/DrugDetails.jsx:38-49 | logged out: the login page, returning to checkout; logged in: checkout; both carry the result and quantity |
| DrugDetails.LoginLeadsToSameCheckout | frontend/src/components/Patient/DrugDetails/DrugDetails.jsx:38-49 | logging in first leads to the same checkout with the same order |
| DrugDetails.Render | frontend/src/components/Patient/DrugDetails/DrugDetails.jsx:12-161 | no result gives only the error state, with the way back to search; otherwise order enabled iff in stock, directions iff an address, the drug's name as title, the pharmacy's name, phone and e-mail each the first one given or the fallback, and the total, delivery, address, hours and prescription warning above |
| DrugDetails.OutOfStockCannotBeOrdered | frontend/src/components/Patient/DrugDetails/DrugDetails.jsx:145 | an out-of-stock result cannot be ordered at any quantity |

## Left out

- HTTP, Express and authentication are not modelled.
  - The caller's id and role arrive as a parameter.
  - Responses are the route's result value; status codes become error constructors.
  - `populate` is not modelled.
  - A database failure caught as a 500 is not modelled, except that a negative skip in the drug list is a server error.
- MongoDB `$text` search is a predicate passed in as a parameter; stemming and tokenisation are not modelled.
- The advanced-search query is a literal case-insensitive substring. Regular-expression metacharacters are not modelled.
- `parseFloat` and `encodeURIComponent` are passed in as functions. NaN is not modelled: neither a non-numeric query string nor a NaN coordinate.
- Prices, discounts, distances and coordinates are reals. Floating-point rounding and `toLocaleString` formatting are not modelled.
- Case mapping is ASCII only: `toLowerCase` and `toUpperCase` of letters outside ASCII are not modelled.
- A document's creation time is its position in its collection. Updates do not touch `createdAt`/`updatedAt`, and wall-clock "expired" checks are not modelled; the approval time is a parameter.
- Mongoose strict mode drops fields the pharmacy schema does not declare (`location`, `locationSet`, top-level `email` and `phone`, `services`, `description`). The model keeps the writes the routes intend.
- An update key whose value is `undefined` is not written, as in current Mongoose. This applies to a resubmitted profile's omitted fields and a rejection without a reason. An explicit `null` in a request body is not modelled.
- Concurrent requests are not modelled; each request runs to completion before the next.
- `findLowStock` (backend/models/Inventory.js:74-79) is not modelled. It compares the quantity with a string literal rather than the minimum stock field.
- The original-price figure at frontend/src/components/Pharmacist/InventoryDrugs.jsx:132 is not modelled (it divides by zero at discount 100); only the condition for showing it is.
- Drug fields without validators (`images`, `barcode`, `manufacturer`, `sideEffects`, `dosageInstructions`) are not part of the stored drug. The add-drug form keeps them as form keys.
- DrugRoutes.SortByName: drugs with equal names keep their catalogue order. MongoDB leaves the order of ties unspecified.
- DrugRoutes.ListDrugs: `page` and `limit` arrive as integers or absent. String coercion of the query parameters is not modelled, and `currentPage` echoes the given page.
- DrugDetails.HoursDisplay reads the keys `open` and `closing`, as the page does. The stored schema names the closing time `close`, but the search route that builds the page's result is not part of this model, so the key the page actually receives is left open.
- DrugDetails.Render: the rating, the distance text, the drug header beyond its name and the static pickup text are not modelled. Opening the map window and navigating are not modelled beyond `MapsUrl` and `OrderNow`.
- AxiosSetup.ResolveBaseUrl: the runtime override is taken as a string. The source accepts any truthy value.
- AxiosSetup.Intercept: the `try`/`catch` and the debug logging are not modelled; nothing in the modelled rewrite can throw.
- React state batching and re-rendering are not modelled. Each state update is applied at once.
