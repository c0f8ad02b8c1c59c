# Farm management cost engine, in Dafny

This project models the core of the Odoo `farm_management` module: how a
farm project's costs are allocated to its greenhouses, how a house's cost is
handed out progressively over its harvest entries, how the average cost
(AVCO) of the harvested product is derived from it, and the workflows and
small pure helpers around these. Amounts are exact `real`s. Database queries
become explicit sequences: house assignments keyed by (project, house) and
visited in the order of their houses' names, allocation rows per cost, and each assignment's harvest entries kept in
(date, id) order.

The modules follow the source files:

- `Common`: options, outcomes, error kinds and record ids.
- `Text`: ASCII digit strings, decimal rendering, parsing and zero-padding.
- `Farm` (`models/farm.py`): the farm → sector → unit → house hierarchy.
  - Counts and areas aggregate up the chain.
  - Full names are built along the chain.
  - The area check.
  - The union of selected sectors, units and houses (`CollectHouses` is the loop).
- `CostAllocation` (`models/farm_project_cost.py`): costs, targets and allocation rows.
  - Target houses of a cost.
  - Allocation by area, or equally.
  - Row replacement, cost requirements and the two-line journal entry.
  - The house cost that harvest entries consume.
- `HarvestLedger` (`models/farm_harvest.py`): the progressive ledger.
  - Each entry takes `remaining × quantity / expected` of the house cost.
  - Entries are recalculated in (date, id) order.
  - Per-entry and cumulative figures.
  - Insertion and deletion of entries.
- `Projects` (`models/farm_project.py`):
  - the `Project` class with its guarded status actions, status history and paused-days accounting;
  - project totals and per-assignment statistics;
  - the AVCO computation, the rewrite of open valuation layers, and the revert.
- `StatusWizard` (`wizard/project_status_wizard.py`): the reason check and the dispatch to pause, resume or cancel.
- `Store`: the `FarmStore` class holding the records that change together. Its methods follow the source's own methods:
  - costs and allocation rows, with the cost's create, write, unlink and state actions (`models/farm_project_cost.py`);
  - assignments and harvest entries, with create, write, unlink, cancel and set-to-done of entries, including the harvest cost a new entry records (`models/farm_harvest.py`);
  - product prices, valuation layers and landed costs, with the AVCO update, revert and completion (`models/farm_project.py`).
- `ProductOrder` (`models/farm_product_order.py`): the product order.
  - The approval chain (class `Order`).
  - Line subtotals and availability.
  - The journal-entry lines built from the order's lines.
  - The grouping of lines by source account into one posted direct cost each.
- `InventoryConfig` (`models/farm_inventory_config.py`) and `QuickAdd` (`wizard/product_quick_add_wizard.py`): product-code components, validation and the sequence of generated codes.
- `Pallets` and `SaleOrders` (`models/sale_order_pallet.py`, `models/sale_order.py`):
  - pallet naming and weight totals;
  - a pallet line's fill progress, without counting a line twice;
  - the order's per-line palletizing summary.
- `Partner` (`models/res_partner.py`): per-customer product codes, their uniqueness, and the barcode lookup.

Behaviour reproduced as the code is written:

- **Harvest costs count in the house cost.** The house cost summed by `_calculate_cost_allocation` counts every posted allocation row. That includes the costs a harvest entry records for itself, which are created posted with one row on the house. `Store.HarvestCostFeedsBack` shows the effect on one entry: the entry is valued at 1000 against a house cost of 5000; recalculating against the 6000 that then stand on the house gives it 1200. The AVCO computation does exclude these costs.
- **Cancelled entries still count.** They are counted in "the previous entries" and in the cumulative sums.
- **Posting a cost does not recalculate harvest entries.** It only changes the cost's state. Recalculation follows only the creation of allocation rows, or a write to their amount, while their cost is posted. Costs created by a product order are allocated while still draft, so they never trigger it.
- **Unlinking entries keeps their harvest costs.** The harvest costs stay, with their entry link cleared. From then on AVCO treats them as real costs.
- **Pallets created in one batch share a number.** They are all numbered from the count read before the batch (`Pallets.BatchSharesNumber`).
- **The sale-order summary has no ordered-quantity guard on completeness.** A line with quantity 0 is complete there. On a pallet line it is not.

## Model

| member | source | states |
|---|---|---|
| Text.Decimal | custom_addons/farm_management/wizard/product_quick_add_wizard.py:118 | the decimal rendering of a number is a nonempty digit string, one digit exactly for numbers below 10 |
| Text.ParseDecimal | custom_addons/farm_management/wizard/product_quick_add_wizard.py:141 | parsing the rendering of `n` gives back `n` |
| Text.ParseLeadingZeros | custom_addons/farm_management/wizard/product_quick_add_wizard.py:141 | zeros put in front of a digit string do not change the number it parses to |
| Text.ZFillDigits | custom_addons/farm_management/wizard/product_quick_add_wizard.py:118 | zero-padding a digit string pads it to the width and keeps both its digits and its value |
| Text.PaddedDecimal | custom_addons/farm_management/wizard/product_quick_add_wizard.py:118 | `str(n).zfill(w)` of a number below 10^w has exactly w digits and parses back to n |
| Text.DigitsOf | custom_addons/farm_management/models/farm_inventory_config.py:53-54 | keeping only the digits yields a digit string no longer than the input, equal to it when it is all digits |
| Farm.CheckArea | custom_addons/farm_management/models/farm.py:418-422 | a house's area is accepted exactly when it is positive |
| Farm.UnitsSplitHouses | custom_addons/farm_management/models/farm.py:293-298 | the houses of a set of distinct units number, and measure, the sum of each unit's house count and total area |
| Farm.SectorAggregatesUnits | custom_addons/farm_management/models/farm.py:195-202 | a sector's house count and area are the sums over its units |
| Farm.SectorsSplitUnits | custom_addons/farm_management/models/farm.py:195-202 | the units, houses and area under a set of distinct sectors are the sums of each sector's counts |
| Farm.FarmAggregatesSectors | custom_addons/farm_management/models/farm.py:72-81 | a farm's unit count, house count and area are the sums over its sectors |
| Farm.HousesOfDisjointUnits | custom_addons/farm_management/models/farm.py:293-298 | houses of disjoint unit sets add up in number and area |
| Farm.HouseInFarmIffRelated | custom_addons/farm_management/models/farm.py:352-364 | a house is counted under a farm exactly when its related farm, through its unit and sector, is that farm |
| Farm.HouseFullNamePath | custom_addons/farm_management/models/farm.py:381-387 | a house's full name is "farm / sector / unit / house" along its chain, and its own name when it has no unit |
| Farm.NameOrder | custom_addons/farm_management/models/farm.py:11 | names compare character by character: any two compare, and only equal names compare both ways |
| Farm.HouseSortKey | custom_addons/farm_management/models/farm.py:316 | a house sorts by its farm, sector, unit and own name, following each model's order |
| Farm.Union | custom_addons/farm_management/models/farm_product_order.py:236-246 | the union keeps everything accumulated, adds exactly the new houses, and creates no duplicate |
| Farm.SelectedHousesMembers | custom_addons/farm_management/models/farm_project_cost.py:724-740 | a house is selected exactly when it is chosen directly, lies in a chosen unit, or lies in a unit of a chosen sector; the selection has no duplicates |
| Farm.CollectHouses | custom_addons/farm_management/models/farm_product_order.py:228-248 | the union loop collects exactly the selected houses, each once |
| InventoryConfig.CheckColorCode | custom_addons/farm_management/models/farm_inventory_config.py:38-42 | a colour code is accepted exactly when it is two digits |
| InventoryConfig.InventoryCode | custom_addons/farm_management/models/farm_inventory_config.py:49-57 | the inventory code is always two digits: the first two digits of the warehouse code, one digit padded with '0', or "00" |
| InventoryConfig.CheckCategoryCode | custom_addons/farm_management/models/farm_inventory_config.py:85-90 | a category code is accepted exactly when it is unset or three digits |
| InventoryConfig.ValidCategoryYieldsThreeDigits | custom_addons/farm_management/models/farm_inventory_config.py:92-97 | an accepted category code, or the default "000", is always three digits |
| QuickAdd.ComputeCodes | custom_addons/farm_management/wizard/product_quick_add_wizard.py:89-108 | the components are never empty; the inventory part is two digits, and missing category and colour default to "000" and "00" |
| QuickAdd.WithPrefix | custom_addons/farm_management/wizard/product_quick_add_wizard.py:126-130 | the product search keeps exactly the codes starting with the prefix |
| QuickAdd.MaxSequenceBounds | custom_addons/farm_management/wizard/product_quick_add_wizard.py:135-147 | the running maximum is at least 1000, bounds every parsed suffix, and is 1000 or some code's suffix |
| QuickAdd.NextSequence | custom_addons/farm_management/wizard/product_quick_add_wizard.py:123-147 | the next sequence is at least 1001, exceeds every parsed suffix of a matching code, and is 1001 or one past such a suffix |
| QuickAdd.GeneratedCode | custom_addons/farm_management/wizard/product_quick_add_wizard.py:110-121 | a code is generated exactly when all three components are set, and it starts with their concatenation |
| QuickAdd.CreateProduct | custom_addons/farm_management/wizard/product_quick_add_wizard.py:168-181 | creation is refused without a generated code or when the code exists; otherwise the code is added |
| QuickAdd.AlwaysGenerated | custom_addons/farm_management/wizard/product_quick_add_wizard.py:89-121 | with the defaults filled in, a code is always generated |
| QuickAdd.GeneratedCodeIsFresh | custom_addons/farm_management/wizard/product_quick_add_wizard.py:110-181 | while the sequence fits in four digits, the generated code carries the proposed sequence and is accepted as new |
| QuickAdd.CreationAdvancesSequence | custom_addons/farm_management/wizard/product_quick_add_wizard.py:123-181 | creating the product raises the next proposed sequence for the same prefix by exactly one |
| QuickAdd.SequenceSticksAtTenThousand | custom_addons/farm_management/wizard/product_quick_add_wizard.py:110-181 | once the proposal reaches 10000 the code gets five digits, reads back as 1000, the proposal stays at 10000 and the second such creation is refused as a duplicate |
| QuickAdd.CategoryOffered | custom_addons/farm_management/wizard/product_quick_add_wizard.py:149-166 | with a warehouse chosen, only categories whose code starts with the inventory code's first digit are offered |
| CostAllocation.Restrict | custom_addons/farm_management/models/farm_project_cost.py:742-743 | the intersection with the project's houses keeps exactly the houses in both, without duplicates |
| CostAllocation.TargetHousesMembers | custom_addons/farm_management/models/farm_project_cost.py:713-745 | an indirect cost targets exactly the project's houses; a direct cost targets the selected houses that are assigned to the project; every target is an assigned house |
| CostAllocation.RowsByAreaSums | custom_addons/farm_management/models/farm_project_cost.py:701-711 | rows by area carry the share area/total of the amount and of 100 |
| CostAllocation.RowsEquallySums | custom_addons/farm_management/models/farm_project_cost.py:691-700 | equal rows carry amount/N and 100/N each |
| CostAllocation.AllocationConserves | custom_addons/farm_management/models/farm_project_cost.py:675-711 | for a nonempty target set there is one row per target; the rows sum to the cost's amount and their percentages to 100 |
| CostAllocation.AllocationRowAt | custom_addons/farm_management/models/farm_project_cost.py:688-711 | row i is for target i and carries amount·area/total and 100·area/total when the total area is positive, otherwise amount/N and 100/N |
| CostAllocation.PositiveAreasSplitByArea | custom_addons/farm_management/models/farm.py:418-422 | when every target passed the area check, the allocation is by area |
| CostAllocation.UniformCostPerSqm | custom_addons/farm_management/models/farm_project_cost.py:837-843 | allocated by area, every house's cost per m² is the cost's amount over the total area |
| CostAllocation.WithoutRowsOf | custom_addons/farm_management/models/farm_project_cost.py:679-680 | removing a cost's rows keeps exactly the other costs' rows |
| CostAllocation.Reallocated | custom_addons/farm_management/models/farm_project_cost.py:675-711 | after reallocation a cost's rows are exactly the new ones: they sum to its amount and 100% for a nonempty target set, are none for an empty one, and other costs' rows are unchanged |
| CostAllocation.SingleHouseRow | custom_addons/farm_management/models/farm_harvest.py:396-410 | a cost on one house gets a single row with the whole amount at 100% |
| CostAllocation.ChargedRowsMembers | custom_addons/farm_management/models/farm_harvest.py:279-284 | the house cost sums exactly the rows on the house whose cost is posted and in the project; the real cost sums those whose cost has no harvest entry |
| CostAllocation.HouseCostOtherRows | custom_addons/farm_management/models/farm_project_cost.py:858-876 | rows on other houses change neither the house cost nor the real house cost |
| CostAllocation.HarvestCostCharges | custom_addons/farm_management/models/farm_harvest.py:380-416 | a posted harvest cost with rows on the house raises the house cost by their amount and leaves the real house cost unchanged |
| CostAllocation.CheckRequirements | custom_addons/farm_management/models/farm_project_cost.py:655-673 | a cost is accepted exactly when it comes from a harvest, or it has a source and the cost account its type needs, a direct one also a source of its own kind |
| CostAllocation.PrepareMoveLines | custom_addons/farm_management/models/farm_project_cost.py:377-427 | a missing cost account for the cost's type is an error; otherwise the entry is a credit of the amount on the payment account and a debit of the amount on the type's cost account |
| CostAllocation.PostingBalances | custom_addons/farm_management/models/farm_project_cost.py:377-427 | the posted entry's debits and credits both equal the cost's amount |
| HarvestLedger.Recalc | custom_addons/farm_management/models/farm_harvest.py:307-321 | recalculating from an entry on keeps the number of entries |
| HarvestLedger.CalcKeepsFacts | custom_addons/farm_management/models/farm_harvest.py:266-305 | calculating an entry changes only its two cost figures, and a second calculation changes nothing more |
| HarvestLedger.RecalcShape | custom_addons/farm_management/models/farm_harvest.py:307-321 | recalculation keeps each entry's date, quantity, state and id, and leaves entries before the start untouched |
| HarvestLedger.RecalcSettles | custom_addons/farm_management/models/farm_harvest.py:180-192 | when the entries before the edited one are settled, recalculating from it settles the whole ledger |
| HarvestLedger.SettledUnique | custom_addons/farm_management/models/farm_harvest.py:266-305 | a ledger's facts determine its settled figures: two settled ledgers with the same facts are equal |
| HarvestLedger.FullRecalcIsFresh | custom_addons/farm_management/models/farm_harvest.py:194-217 | a full recalculation settles the ledger and depends only on the entries' facts, not on their stale figures |
| HarvestLedger.RecalcIdempotent | custom_addons/farm_management/models/farm_harvest.py:307-321 | a settled ledger is left as it is, and recalculating twice is recalculating once |
| HarvestLedger.CascadeFromEdit | custom_addons/farm_management/models/farm_harvest.py:180-192 | recalculating from the edited entry on gives the same ledger as recalculating everything |
| HarvestLedger.SettledChain | custom_addons/farm_management/models/farm_harvest.py:278-305 | in a settled ledger each entry's remaining cost is the house cost less what earlier entries took, it takes remaining·quantity/expected, and the next entry starts from what is left |
| HarvestLedger.SettledWithoutExpected | custom_addons/farm_management/models/farm_harvest.py:273-276 | with expected quantity zero every entry's remaining and allocated cost is zero |
| HarvestLedger.SettledClosedForm | custom_addons/farm_management/models/farm_harvest.py:278-305 | what is left after k entries is the house cost times the product of (1 − quantity/expected) over them |
| HarvestLedger.LeftoverZero | custom_addons/farm_management/models/farm_harvest.py:296-305 | that product is zero exactly when some entry's quantity equals the expected quantity |
| HarvestLedger.SettledExhaustsCostIff | custom_addons/farm_management/models/farm_harvest.py:278-305 | a nonzero house cost is handed out in full exactly when some entry harvests the whole expected quantity |
| HarvestLedger.HarvestValueIsAllocated | custom_addons/farm_management/models/farm_harvest.py:219-226 | quantity times unit cost gives back the entry's allocated cost |
| HarvestLedger.CumulativeConserves | custom_addons/farm_management/models/farm_harvest.py:235-264 | the cumulative allocated cost up to an entry plus what remains after it is the house cost |
| HarvestLedger.RecalcKeepsLedger | custom_addons/farm_management/models/farm_harvest.py:307-321 | recalculation keeps the entries in (date, id) order with their ids |
| HarvestLedger.InsertPos | custom_addons/farm_management/models/farm_harvest.py:165-178 | the insertion point lies within the ledger |
| HarvestLedger.InsertPosSplits | custom_addons/farm_management/models/farm_harvest.py:287-295 | entries before the insertion point are dated no later, entries after it later |
| HarvestLedger.InsertSorted | custom_addons/farm_management/models/farm_harvest.py:165-178 | a new entry with the newest id lands at its (date, id) place, keeping the order and the entries before it |
| HarvestLedger.Remove | custom_addons/farm_management/models/farm_harvest.py:194-217 | deletion keeps exactly the entries whose id is not deleted |
| HarvestLedger.RemoveSorted | custom_addons/farm_management/models/farm_harvest.py:194-217 | deletion keeps the (date, id) order |
| HarvestLedger.WorkedExample | custom_addons/farm_management/models/farm_harvest.py:219-305 | 200 then 300 of 1000 expected against 5000 take 1000 and 1200, at unit costs 5 and 4, with 50% cumulative progress |
| HarvestLedger.WorkedExampleAfterDeletion | custom_addons/farm_management/models/farm_harvest.py:194-217 | deleting the first entry makes the second take 1500 of the full 5000 |
| Projects.Project.constructor | custom_addons/farm_management/models/farm_project.py:165-169 | a new project is a draft with no history, no dates and no paused days |
| Projects.Project.Start | custom_addons/farm_management/models/farm_project.py:216-226 | only a draft starts: it becomes in progress, today is its start date and one history record is added; otherwise nothing changes |
| Projects.Project.PauseRequest | custom_addons/farm_management/models/farm_project.py:228-232 | pausing may be requested exactly when the project is in progress |
| Projects.Project.ResumeRequest | custom_addons/farm_management/models/farm_project.py:246-250 | resuming may be requested exactly when the project is paused |
| Projects.Project.CancelRequest | custom_addons/farm_management/models/farm_project.py:278-282 | cancelling may be requested exactly when the project is neither completed nor cancelled |
| Projects.Project.Complete | custom_addons/farm_management/models/farm_project.py:264-274 | only a project in progress completes, with today as its finish date and one history record; otherwise nothing changes |
| Projects.Project.ResetToDraft | custom_addons/farm_management/models/farm_project.py:296-307 | anything but a completed project returns to draft, clearing its start and paused dates and logging the old status |
| Projects.Project.DoPause | custom_addons/farm_management/models/farm_project.py:320-327 | the project is paused from today, with a history record carrying the reason |
| Projects.Project.DoResume | custom_addons/farm_management/models/farm_project.py:329-341 | the project is in progress again; the days since the pause date, or none without one, are added to the paused days and the date is cleared |
| Projects.Project.DoCancel | custom_addons/farm_management/models/farm_project.py:343-349 | the project is cancelled and the history logs its previous status with the reason |
| Projects.ProjectTotals | custom_addons/farm_management/models/farm_project.py:183-193 | total = direct + indirect, and the cost per m² times the area is the total, or 0 without area |
| Projects.PostedSumUpdate | custom_addons/farm_management/models/farm_project.py:183-193 | changing one cost changes the posted sum by the difference of its contributions |
| Projects.TotalsFollowPosting | custom_addons/farm_management/models/farm_project.py:183-193 | posting a cost of the project raises its total by the amount; leaving posted lowers it by the amount |
| Projects.DraftEditsDoNotCount | custom_addons/farm_management/models/farm_project.py:183-193 | edits to costs that are not posted leave the totals unchanged |
| Projects.ProjectHousesMembers | custom_addons/farm_management/models/farm_project.py:172-181 | a project's houses are exactly the houses assigned to it, each once |
| Projects.AssignmentCostStats | custom_addons/farm_management/models/farm_project.py:751-782 | the house cost is split into what was given to entries and what remains; the average unit cost times the harvested quantity is what was given, or 0 |
| Projects.SettledAssignmentStats | custom_addons/farm_management/models/farm_project.py:762-782 | for a settled ledger the remaining cost is the house cost times what is left, equals the last entry's remaining after it, and the last cumulative figures are the totals |
| Projects.Receipts | custom_addons/farm_management/models/farm_project.py:437-442 | the AVCO quantity counts exactly the done entries that have a receipt |
| Projects.EarliestAccounted | custom_addons/farm_management/models/farm_project.py:459-467 | the row the account loop stops at belongs to the earliest cost, by date and then id, among the rows' costs that have an account; there is none exactly when no such cost exists |
| Projects.CostAccount | custom_addons/farm_management/models/farm_project.py:459-470 | the landed-cost account is that of the earliest cost that has one, its direct account before its indirect one, and the cost product's expense account when no cost has one |
| Projects.AvcoForMeaning | custom_addons/farm_management/models/farm_project.py:425-472 | a house gets an AVCO exactly when its real cost is positive, it has receipts, a product, a positive quantity and a cost account; the target price is the real cost over the received quantity, and the account is the one the cost rows give |
| Projects.Ordered | custom_addons/farm_management/models/farm_project.py:422 | the assignments are visited in the order given, one for each position |
| Projects.LastTargetPresent | custom_addons/farm_management/models/farm_project.py:474-475 | among a run of updates, the last one for a product is the last present update that concerns it, and there is none when none concerns it |
| Projects.LastTargetFrom | custom_addons/farm_management/models/farm_project.py:422-475 | a product's final price comes from the last of the project's houses, in processing order, whose update concerns it; otherwise no update sets it |
| Projects.Revalue | custom_addons/farm_management/models/farm_project.py:479-484 | each layer of the product with open quantity is revalued at the target; other layers are kept |
| Projects.LayersAfterAt | custom_addons/farm_management/models/farm_project.py:474-509 | after a run of updates each layer is what the updates make of it on its own |
| Projects.LandedCostsOf | custom_addons/farm_management/models/farm_project.py:486-502 | one landed-cost record per updated house, carrying its product, real cost and account |
| Projects.PricesAfterMeaning | custom_addons/farm_management/models/farm_project.py:474-475 | a product updated in the run ends at its last target; other prices are unchanged |
| Projects.LayerAfterMeaning | custom_addons/farm_management/models/farm_project.py:479-484 | an open layer of an updated product ends at remaining quantity × last target; every other layer is unchanged |
| Projects.LayerPrice | custom_addons/farm_management/models/farm_project.py:386-395 | the reset price times the open quantity is the open value, or 0 without open quantity |
| Projects.ResetProducts | custom_addons/farm_management/models/farm_project.py:364-367 | the products to reset are exactly those of the project's landed costs, each once |
| Projects.ResetPricesMeaning | custom_addons/farm_management/models/farm_project.py:384-397 | each product to reset gets the price of its open layers; other prices are unchanged |
| Projects.KeepOtherProjects | custom_addons/farm_management/models/farm_project.py:366-382 | reverting removes exactly the project's own landed costs |
| Projects.OpenValueAtTarget | custom_addons/farm_management/models/farm_project.py:483-484 | when every open layer is valued at the target, the open value is target × open quantity |
| Projects.RevertAfterUpdateKeepsTarget | custom_addons/farm_management/models/farm_project.py:384-397 | reverting right after an update resets an updated product to its target |
| Projects.UpdatedLayersAtTarget | custom_addons/farm_management/models/farm_project.py:479-484 | after the update every open layer of an updated product is valued at its last target |
| StatusWizard.Target | custom_addons/farm_management/wizard/project_status_wizard.py:33-38 | pause, resume and cancel lead to paused, in progress and cancelled, never to draft or completed |
| StatusWizard.Logged | custom_addons/farm_management/wizard/project_status_wizard.py:33-38 | the record logs the action's target and reason; cancel logs the status the project had |
| StatusWizard.Confirm | custom_addons/farm_management/wizard/project_status_wizard.py:26-40 | an empty reason is refused before any change; otherwise the action runs whatever the status, sets its target and adds one record |
| Store.FarmStore.AddAssignment | custom_addons/farm_management/models/farm_project.py:711-714 | a second assignment of the same house to a project is refused; otherwise it is appended |
| Store.FarmStore.RecalculateFrom | custom_addons/farm_management/models/farm_harvest.py:307-321 | one assignment's entries are recalculated from an entry on against the current house cost; nothing else changes |
| Store.FarmStore.RecalculateHouse | custom_addons/farm_management/models/farm_project_cost.py:858-876 | every assignment of the (project, house) is recalculated in order; nothing else changes |
| Store.FarmStore.AllocateCost | custom_addons/farm_management/models/farm_project_cost.py:675-711 | the cost's rows are replaced by those for its targets, and the targets' entries are recalculated when the cost is posted |
| Store.FarmStore.AddRow | custom_addons/farm_management/models/farm_project_cost.py:845-849 | a row is appended and, for a posted cost, its house's entries are recalculated |
| Store.FarmStore.CreateCost | custom_addons/farm_management/models/farm_project_cost.py:231-238 | a cost failing its requirements is refused unchanged; otherwise it is stored and allocated |
| Store.FarmStore.WriteCost | custom_addons/farm_management/models/farm_project_cost.py:240-249 | an edit is refused when it breaks the requirements it touches; the cost is reallocated only for an edit of amount, type, sources or project while draft |
| Store.FarmStore.UnlinkCosts | custom_addons/farm_management/models/farm_project_cost.py:251-255 | deleting any nonempty selection of costs is refused; only the empty selection passes |
| Store.FarmStore.PostCost | custom_addons/farm_management/models/farm_project_cost.py:261-277 | only a draft posts, and a cost without an order needs a payment account, a journal and its cost account; only the state and the entry change, with no recalculation |
| Store.FarmStore.CancelCost | custom_addons/farm_management/models/farm_project_cost.py:279-311 | any cost not already cancelled is cancelled, with its posted entry cancelled too |
| Store.FarmStore.ResetCostToDraft | custom_addons/farm_management/models/farm_project_cost.py:313-322 | only a cancelled cost returns to draft |
| Store.FarmStore.WriteAllocationAmount | custom_addons/farm_management/models/farm_project_cost.py:851-856 | a row's amount is rewritten and, for a posted cost, its house's entries are recalculated |
| Store.FarmStore.CreateEntry | custom_addons/farm_management/models/farm_harvest.py:165-178 | a non-positive quantity, a missing product or a zero expected quantity is refused; otherwise the entry takes its place and is calculated, and a positive value is recorded as a posted harvest cost on the house |
| Store.FarmStore.CreateHarvestCost | custom_addons/farm_management/models/farm_harvest.py:380-416 | a positive value becomes a posted direct cost with one 100% row on the house; it raises the house cost by the value, leaves the real cost unchanged and recalculates the house |
| Store.FarmStore.WriteQuantity | custom_addons/farm_management/models/farm_harvest.py:180-192 | a non-positive quantity is refused; otherwise the entry and every later one are recalculated |
| Store.FarmStore.UnlinkEntries | custom_addons/farm_management/models/farm_harvest.py:194-217 | deleted entries' harvest costs lose their link, and every affected assignment is recalculated without them |
| Store.FarmStore.RemoveEntries | custom_addons/farm_management/models/farm_harvest.py:194-217 | the entries are removed from one assignment and the rest recalculated |
| Store.FarmStore.CancelEntry | custom_addons/farm_management/models/farm_harvest.py:617-674 | a done entry whose receipt cannot be cancelled is refused; otherwise a done entry becomes cancelled and a cancelled one is untouched |
| Store.FarmStore.SetEntryDone | custom_addons/farm_management/models/farm_harvest.py:676-698 | only a cancelled entry becomes done |
| Store.FarmStore.UpdateAvco | custom_addons/farm_management/models/farm_project.py:399-509 | without a journal the update is refused; otherwise the project's houses are visited once each in the order of their farm, sector, unit and house names, prices, layers and landed costs follow their AVCO updates in that order, and the project is marked updated |
| Store.FarmStore.ApplyAvcoUpdates | custom_addons/farm_management/models/farm_project.py:422-505 | the houses' updates are applied one after the other: prices, layers and landed costs end as the specification of the whole run says |
| Store.FarmStore.ApplyAvcoUpdate | custom_addons/farm_management/models/farm_project.py:474-502 | one house's update sets its product's price, revalues its open layers and records one landed cost |
| Store.FarmStore.RevalueLayers | custom_addons/farm_management/models/farm_project.py:479-484 | the product's open layers are revalued at the target |
| Store.FarmStore.RevertAvco | custom_addons/farm_management/models/farm_project.py:361-397 | the project's landed costs are removed, their products' prices are reset from the open layers and the project is marked not updated |
| Store.FarmStore.ActionUpdateAvco | custom_addons/farm_management/models/farm_project.py:353-359 | only a project in progress or completed is updated: first reverted, then recomputed over its houses in name order |
| Store.FarmStore.CompleteProject | custom_addons/farm_management/models/farm_project.py:263-276 | completing a project in progress also updates its AVCO over its houses in name order |
| Store.CalcInserted | custom_addons/farm_management/models/farm_harvest.py:165-178 | inserting and calculating an entry adds exactly one entry |
| Store.InsertedLedgerOk | custom_addons/farm_management/models/farm_harvest.py:165-178 | an inserted entry keeps the ledger ordered with fresh ids |
| Store.FactsEditOk | custom_addons/farm_management/models/farm_harvest.py:180-192 | changing an entry's quantity keeps the ledger ordered |
| Store.HarvestTargets | custom_addons/farm_management/models/farm_harvest.py:396-410 | a harvest cost on the assigned house targets exactly that house |
| Store.WriteSettles | custom_addons/farm_management/models/farm_harvest.py:180-192 | after a quantity change, recalculating from the edited entry equals a full recalculation and settles the ledger |
| Store.HarvestCostFeedsBack | custom_addons/farm_management/models/farm_harvest.py:279-284 | a harvest valued at 1000 against 5000 raises the house cost to 6000, and recalculation then values it at 1200; against the real cost of 5000 it is unchanged |
| ProductOrder.OrFallback | custom_addons/farm_management/models/farm_product_order.py:488-489 | a line's own account wins, the category's account is the fallback |
| ProductOrder.EntryLinesMeaning | custom_addons/farm_management/models/farm_product_order.py:485-507 | a missing account on any line is an error; otherwise each line gives a debit of its subtotal on the source and a credit on the destination |
| ProductOrder.EntryBalanced | custom_addons/farm_management/models/farm_product_order.py:485-507 | the entry's debits and credits both equal the order total |
| ProductOrder.BuildEntryLines | custom_addons/farm_management/models/farm_product_order.py:485-507 | the line-building loop yields exactly the specified entry lines or error |
| ProductOrder.ErrorPersists | custom_addons/farm_management/models/farm_product_order.py:491-492 | once a line lacks an account the whole build fails |
| ProductOrder.AddToMeaning | custom_addons/farm_management/models/farm_product_order.py:541-547 | adding to the groups adds the amount to that account only, creating the account's group if needed |
| ProductOrder.GroupsMeaning | custom_addons/farm_management/models/farm_product_order.py:538-547 | there is one group per distinct source account, holding the sum of its lines' subtotals; lines without an account are skipped |
| ProductOrder.AccountGroups | custom_addons/farm_management/models/farm_product_order.py:538-547 | the grouping loop yields exactly the specified groups |
| ProductOrder.OrderCostsMeaning | custom_addons/farm_management/models/farm_product_order.py:553-570 | every created cost is a posted direct cost of the order on the targets, and together they amount to the accounted lines' total |
| ProductOrder.OrderTargets | custom_addons/farm_management/models/farm_product_order.py:228-248 | the order's targets are exactly the selected houses, each once, with no project restriction |
| ProductOrder.OrderCostTargets | custom_addons/farm_management/models/farm_project_cost.py:713-745 | a cost of the order is allocated to exactly the order's targets that the project has, each once |
| ProductOrder.CreateCosts | custom_addons/farm_management/models/farm_product_order.py:553-570 | one cost per group is stored, allocated and posted; nothing else in the store changes |
| ProductOrder.Order.constructor | custom_addons/farm_management/models/farm_product_order.py:20-27 | a new order is a draft without an entry |
| ProductOrder.Order.Submit | custom_addons/farm_management/models/farm_product_order.py:252-269 | only a draft with lines and targets is submitted: a direct order to inventory approval, others to owner approval |
| ProductOrder.Order.OwnerApprove | custom_addons/farm_management/models/farm_product_order.py:271-279 | only owner approval moves on, to inventory approval |
| ProductOrder.Order.InventoryApprove | custom_addons/farm_management/models/farm_product_order.py:281-299 | only inventory approval with every line available moves on, to accounting approval |
| ProductOrder.Order.AccountingApprove | custom_addons/farm_management/models/farm_product_order.py:301-322 | only accounting approval completes the order; a direct order needs its entry; otherwise the entry is built; farm costs are created only with targets, a project in progress and an accounted line |
| ProductOrder.Order.Cancel | custom_addons/farm_management/models/farm_product_order.py:324-339 | every order but a done one is cancelled |
| ProductOrder.Order.ResetToDraft | custom_addons/farm_management/models/farm_product_order.py:341-350 | only a cancelled order returns to draft |
| Partner.CodesOf | custom_addons/farm_management/models/res_partner.py:66-69 | a partner's codes are exactly the entries for that partner |
| Partner.BarcodeMeaning | custom_addons/farm_management/models/res_partner.py:83-89 | with unique pairs, a custom code for the product is returned; without one, the product's default code or "" |
| Partner.SamePairSameCode | custom_addons/farm_management/models/res_partner.py:45-49 | with unique pairs at most one code matches a (partner, product) |
| Partner.CodesOfAppend | custom_addons/farm_management/models/res_partner.py:66-69 | adding a code raises its partner's code count by one and no other partner's |
| Partner.CodeTable.Add | custom_addons/farm_management/models/res_partner.py:45-49 | a second code for the same (partner, product) is refused; otherwise it is added, keeping pairs unique |
| Pallets.TotalsConcat | custom_addons/farm_management/models/sale_order_pallet.py:76-80 | a pallet's kg and box totals add up over its lines |
| Pallets.NumberedName | custom_addons/farm_management/models/sale_order_pallet.py:90-97 | a default-named pallet on an order is "باليت N" with N one past the existing count; any other name is kept |
| Pallets.NameBatch | custom_addons/farm_management/models/sale_order_pallet.py:90-97 | each pallet of a batch is named from the count read before the batch |
| Pallets.BatchSharesNumber | custom_addons/farm_management/models/sale_order_pallet.py:90-97 | two default-named pallets created in one batch get the same name |
| Pallets.ProgressOf | custom_addons/farm_management/models/sale_order_pallet.py:264-270 | remaining is max(0, ordered − palletized); over implies complete; with nothing ordered percent is 0 and neither flag is set; otherwise complete means nothing remains and percent·ordered = palletized·100 |
| Pallets.CurrentPallet | custom_addons/farm_management/models/sale_order_pallet.py:236-247 | the loop sums the current pallet's lines of the product and collects their ids |
| Pallets.LineProgress | custom_addons/farm_management/models/sale_order_pallet.py:217-270 | without product or order everything is 0; otherwise the figures come from ordered and current plus uncounted saved weight |
| Pallets.FormMeaning | custom_addons/farm_management/models/sale_order_pallet.py:240-247 | the unedited form holds exactly the pallet's saved lines |
| Pallets.SplitSaved | custom_addons/farm_management/models/sale_order_pallet.py:249-262 | the pallet's saved weight plus the uncounted saved weight is the order's saved weight |
| Pallets.NoDoubleCount | custom_addons/farm_management/models/sale_order_pallet.py:236-262 | for an unedited pallet, palletized weight is the order's saved weight, each line counted once |
| Pallets.LineBarcodeMeaning | custom_addons/farm_management/models/sale_order_pallet.py:282-288 | with a customer, the customer's code for the product is printed; otherwise the default code |
| SaleOrders.TotalsOverAllLines | custom_addons/farm_management/models/sale_order.py:35-39 | the order's kg and box totals are those of all its pallet lines |
| SaleOrders.NewPalletNumber | custom_addons/farm_management/models/sale_order_pallet.py:90-97 | a new default-named pallet raises the count by one and carries the new count as its number |
| SaleOrders.EntryMeaning | custom_addons/farm_management/models/sale_order.py:50-69 | remaining is never negative and is zero exactly when complete; over implies complete; percent is 0 without an ordered quantity; a line of quantity 0 is complete |
| SaleOrders.PalletizedPerPallet | custom_addons/farm_management/models/sale_order.py:51-55 | palletized weight is the sum of each pallet's weight of the product |
| SaleOrders.ProgressSummary | custom_addons/farm_management/models/sale_order.py:41-72 | one entry per order line, in order-line order |

## Left out

- Stock pickings, moves and quants: harvest receipts, order transfers and their cancellation appear only as flags (`transferOk`, `transferCancelled`, `stockConfigured`) and as each entry's receipt mark. They depend on the stock platform and fail softly.
- Accounting persistence: `account.move` creation, posting and reversal, analytic lines, and the landed-cost records' own life cycle. The journal lookup is a `journalFound` flag. Only the journal lines and their balance are modelled.
- Chatter messages, `ir.sequence` codes, translated messages, window actions and house analytic-account creation.
- The clock: `today` is a parameter. Progress days, remaining days and status durations are not modelled.
- Regex-based produce detection, product and settings wrappers, the import wizards, the HTTP controllers, label rendering and barcode images.
- Display-only fields: source display, ledger description, cost-type display and action display.
- The allocation onchange preview. It duplicates `_compute_allocations`.
- `available_product_ids` and the unit-of-measure names in the sale-order summary.
- Order approval does not model the stock moves that `_create_stock_moves` creates.
- Floating point: amounts and quantities are exact reals, with no Monetary or float rounding.
- Digits: only ASCII '0'–'9' are digits. Python's `isdigit`, `\D` and `int()` also accept Unicode digits, signs, whitespace and underscores.
- QuickAdd.NextSequence: a four-character suffix that does not parse as a number is skipped. The model treats any suffix with a non-digit as unparsable, including the signed or space-padded forms that `int()` would accept.
- CostAllocation.CheckRequirements: the source checks requirements per record of a batch. The model checks one cost at a time.
- Store.FarmStore.CancelEntry: the reversal of the receipt transfer is the `transferCancelled` flag.
- Store.FarmStore.UpdateAvco: names are compared character by character (code point order), where the database compares them under its collation; houses whose four names are all equal may come in either order. The caller passes the order, as the database returns it.
- Archived records: the `active` flag of farms, sectors, units and houses is not modelled. Farm.UnitsSplitHouses, Farm.SectorAggregatesUnits, Farm.FarmAggregatesSectors, Farm.SelectedHousesMembers and CostAllocation.TargetHousesMembers therefore count and select archived records too, where the source's default searches skip them.
- HarvestLedger.CumulativeHarvested, HarvestLedger.CumulativeAllocated and HarvestLedger.CumulativeProgress: the source stores these per entry and recomputes them only when the entry's own fields change. Creating an earlier entry without a harvest cost leaves later entries' stored figures stale. The model computes them from the current ledger, as a full recalculation would.
