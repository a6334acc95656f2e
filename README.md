# A verified model of a food-delivery web application

The application is a single-page front end for a local food-delivery service. Four kinds of
user share one data layer:

- clients browse businesses and their menus, fill a cart, place orders, follow them on a map and rate them;
- businesses manage incoming orders (accept, set a preparation time, move each order along), keep a profile with promotion files, and read sales statistics;
- couriers take ready orders, deliver them, message clients and see their history and earnings;
- the administrator sees every order on one map, reads global statistics and purges finished orders.

This project restates that behaviour in Dafny and proves what each piece promises.

Layout:

- One module per modelled source file: `DeliveryEstimate`, `OrderManagement`, `Cart`,
  `BusinessDetail`, `DeliveryMap`, `AdminGlobalMap`, `BusinessProfile`, `App`, `HomePage`,
  `BusinessList`, `StarDisplay`, `RatingModal`, `OrderHistory`, `OrderTracking`,
  `BusinessStats`, `GlobalStats`, `DeliveryHistory`, `ActiveDeliveries`, `AvailableOrders`.
- Shared modules:
  - `Common`: the option type and the JavaScript truthiness of missing values.
  - `Seqs`: filter, map, sum, stable sort and the first `k`.
  - `Texts`: integer printing and parsing, `parseFloat` on finite decimals (sign, fraction and exponent), lower-casing, substrings, split, join and trim.
  - `Tally`: the insertion-ordered object that `reduce` builds, and `Object.entries` over it.
  - `Domain`: statuses, orders, couriers, businesses, products and promotions.
  - `DataStore`: the shared data context as a class whose fields are the tables.

Stateful parts of the application are classes whose methods update fields and state the
whole new state. These are the data context, the order card countdown, the cart page, the
saved cart, the courier simulation on the delivery map, the promotion manager, the
sign-in dialog, the carousel, the star picker and the rating dialog. Everything computed
from the tables is written as functions with lemmas.

The world outside the program is given as parameters:

- each backend call's success or failure is an `ok` flag;
- the current time, the date and hour keys of the statistics, the distance between two coordinates and the image compression are passed in.

Money and coordinates are reals. Timestamps are integer milliseconds.

## Model

| member | source | states |
|---|---|---|
| DeliveryEstimate.FirstRangeIsLeftmost | src/lib/utils.js:18 | the `(\d+)-(\d+)` match is absent exactly when no position of the text starts a range, and otherwise it is the leftmost such range |
| DeliveryEstimate.Estimate | src/lib/utils.js:8-37 | no business gives "N/A"; an order whose preparation time is missing or zero gives "N/A"; every other answer ends in " min" or is the business's delivery-time text itself |
| DeliveryEstimate.RangeText | src/lib/utils.js:27 | a range estimate ends in " min" |
| DeliveryEstimate.MinutesText | src/lib/utils.js:33 | a single estimate ends in " min" |
| DeliveryEstimate.NoDashNoRange | src/lib/utils.js:18 | a text without a dash holds no range |
| DeliveryEstimate.ReadPrintedRange | src/lib/utils.js:18-27 | the printed range `lo-hi min` is matched back as the range (lo, hi) |
| DeliveryEstimate.ReadPrintedRangeIn | src/lib/utils.js:18-22 | the text `lo-hi` is read as the range (lo, hi) |
| DeliveryEstimate.RangeEstimate | src/lib/utils.js:18-28 | a delivery time holding a range gives that range shifted by the preparation minutes, and the result is read back as the shifted range |
| DeliveryEstimate.SingleEstimate | src/lib/utils.js:30-34 | a delivery time that parses as one number gives that number plus the preparation minutes, or "N/A" when the total is not positive; the printed total parses back |
| DeliveryEstimate.MinutesTextHasNoRange | src/lib/utils.js:18 | a single estimate is never mistaken for a range |
| DeliveryEstimate.RestatedRange | src/lib/utils.js:18-27 | a range estimate used as a delivery time with no preparation time estimates to itself |
| DeliveryEstimate.RestatedMinutes | src/lib/utils.js:30-34 | a single estimate used as a delivery time with no preparation time estimates to itself |
| DeliveryEstimate.RestatedNA | src/lib/utils.js:36 | "N/A" used as a delivery time estimates to itself |
| DeliveryEstimate.EstimateIsStable | src/lib/utils.js:8-37 | with a non-negative preparation time, estimating the estimate again with no preparation time changes nothing |
| DeliveryEstimate.ExampleRange | src/lib/utils.js:18-27 | "25-35" without an order gives "25-35 min" |
| DeliveryEstimate.ExampleRangeWithPrep | src/lib/utils.js:11-27 | "25-35" with 10 minutes of preparation gives "35-45 min" |
| DeliveryEstimate.ExampleSingle | src/lib/utils.js:30-33 | "30" with 5 minutes of preparation gives "35 min" |
| DeliveryEstimate.ExampleNoPrep | src/lib/utils.js:14 | an order with a missing or zero preparation time gives "N/A" |
| Domain.UpdateOrders | src/contexts/DataContext.jsx:133 | every order with the id gets the patch and every other order is left as it is |
| Domain.UpdateCouriers | src/contexts/DataContext.jsx:121 | every courier with the id gets the patch and every other courier is left as it is |
| Domain.UpdateBusinesses | src/contexts/DataContext.jsx:102 | every business with the id gets the patch and every other business is left as it is |
| Domain.StatusRoundTrip | src/components/business/OrderManagement.jsx:274-284 | a stored status text reads as a status that prints back as that text, and a known status prints as text that reads back as it |
| Seqs.SortDesc | src/components/client/OrderHistory.jsx:24 | sorting by a key gives the same elements (as a multiset) in non-increasing key order |
| Seqs.SortDescIsStable | src/components/business/BusinessStats.jsx:35-38 | the sort is stable: the elements sharing a key keep their order, which decides the ties kept at a cut |
| Seqs.TopK | src/components/business/BusinessStats.jsx:35-38 | sorting then keeping the first `k` gives `k` elements (or all), by decreasing key, none with a smaller key than one left out |
| Seqs.FindIsFirst | src/pages/HomePage.jsx:146 | what `find` returns is the first element that passes the test: none before it does |
| Seqs.FindAtFirstMatch | src/pages/HomePage.jsx:146 | conversely, when position i holds the first element that passes, `find` returns exactly that element |
| Seqs.DistinctInFirstOrder | src/pages/BusinessDetailPublic.jsx:77 | `[...new Set(s)]` lists each element in the order of its first occurrence in `s` |
| Tally.TallyFacts | src/components/business/BusinessStats.jsx:30-33 | adding weights into an object keyed by name gives one entry per key holding that key's total weight, and the entries add up to the total |
| Tally.CountByFacts | src/components/business/BusinessStats.jsx:40-43 | counting into an object keyed by a field gives one entry per key present holding its count, and the counts add up to the number of elements |
| Texts.LowerIdempotent | src/components/client/BusinessList.jsx:77-82 | lowering letter case twice is lowering it once |
| Texts.SplitJoin | src/components/client/Cart.jsx:78-79 | splitting on a separator gives pieces without it that join back into the text |
| Texts.TrimIdempotent | src/components/client/Cart.jsx:79 | trimming twice is trimming once |
| Texts.ParseIntOfString | src/components/business/OrderManagement.jsx:46 | `parseInt` reads the decimal text of any integer back as that integer |
| Texts.ParseIntOfPrinted | src/lib/utils.js:30 | `parseInt` stops at the first non-digit after a printed integer |
| DataStore.FindOrder | src/pages/OrderTracking.jsx:18 | the order found has the id asked for; none is found exactly when no order has it |
| DataStore.WithoutIds | src/contexts/DataContext.jsx:158-159 | the orders left are exactly those whose id is not among the deleted ids |
| DataStore.PurgeLeavesOpenOrders | src/contexts/DataContext.jsx:138-159 | with one order per id, deleting the ids of the finished orders leaves exactly the open orders, in their order |
| DataStore.MeanBounds | src/contexts/DataContext.jsx:201-202 | an average of scores lies between the smallest and largest admissible score |
| DataStore.BusinessScores | src/contexts/DataContext.jsx:199 | the scores selected are exactly the non-null business scores of the business's rating rows |
| DataStore.CourierScores | src/contexts/DataContext.jsx:207 | the scores selected are exactly the non-null delivery scores of the courier's rating rows |
| DataStore.BusinessScoresOfEveryRow | src/contexts/DataContext.jsx:199-201 | the business selection is one score per rating row of the business that has a business score, duplicates included, in row order |
| DataStore.CourierScoresOfEveryRow | src/contexts/DataContext.jsx:207-209 | the courier selection is one score per rating row of the courier that has a delivery score, duplicates included, in row order |
| DataStore.BusinessScoresAppend | src/contexts/DataContext.jsx:183-199 | inserting a rating row adds its business score, if any, at the end of the selection |
| DataStore.CourierScoresAppend | src/contexts/DataContext.jsx:183-207 | inserting a rating row adds its delivery score, if it is the courier's and has one, at the end of the courier's selection |
| DataStore.ZeroScoresCount | src/contexts/DataContext.jsx:199-201 | a stored score of 0 passes the not-null filter and takes part in later averages: it adds nothing to the sum and one to the count |
| DataStore.Extension | src/contexts/DataContext.jsx:234 | the extension holds no dot and ends the file name; it is the whole name when there is no dot, and otherwise the text after the last dot |
| DataStore.LastPartIsSuffix | src/contexts/DataContext.jsx:234 | the last piece of a split is a suffix of the text |
| DataStore.Store.constructor | src/contexts/DataContext.jsx:21-55 | the store starts from the tables the backend holds: the orders, archive, businesses, couriers and quick messages `fetchData` loads, and the ratings table and promotion files that later calls read in place |
| DataStore.Store.AddOrder | src/contexts/DataContext.jsx:126-130 | on success the order is appended and returned; on an error nothing is stored and nothing returned |
| DataStore.Store.UpdateOrder | src/contexts/DataContext.jsx:132-136 | on success the order with that id is patched; on an error nothing changes |
| DataStore.Store.UpdateCourier | src/contexts/DataContext.jsx:120-124 | on success the courier with that id is patched; on an error nothing changes |
| DataStore.Store.UpdateBusiness | src/contexts/DataContext.jsx:101-118 | on success the business with that id is patched; the error is reported and nothing changes otherwise |
| DataStore.Store.DeleteCompletedOrders | src/contexts/DataContext.jsx:138-166 | nothing finished: success and no change; archive failure: nothing changes; otherwise every finished order is archived in order, and deleted when the delete succeeds, with the count in the message |
| DataStore.Store.AddRating | src/contexts/DataContext.jsx:168-216 | without a user nothing happens; the order gets both scores, then the rating row is inserted; only after both, a positive score recomputes the business's (or the courier's) rating as the mean of its stored scores |
| DataStore.Store.SendQuickMessage | src/contexts/DataContext.jsx:218-230 | a message is stored exactly when a user is signed in and the insert succeeds |
| DataStore.Store.UploadPromotionFile | src/contexts/DataContext.jsx:232-251 | without a user the "User not authenticated" error; on success the file is stored under `user/uuid.ext` and its public URL, name and path returned; on an error nothing is stored |
| DataStore.Store.DeletePromotionFile | src/contexts/DataContext.jsx:253-257 | the file is removed exactly when a user is signed in and storage succeeds |
| OrderManagement.StatusWrite | src/components/business/OrderManagement.jsx:228-244 | a write, when made, is the status asked for; a cancel is skipped exactly when the order is already cancelled; "accepted" is written exactly over a pending order; any other status is always written |
| OrderManagement.NextActions | src/components/business/OrderManagement.jsx:53-75 | pending offers accept and cancel; accepted offers preparing only once a preparation time is set; preparing offers ready; ready offers delivered; finished, delivering and unknown orders have no button; every button moves the order to a later stage and is a write the status change accepts |
| OrderManagement.OfferedPathsEnd | src/components/business/OrderManagement.jsx:53-75 | any run of offered button presses is at most as long as the stages left, so the board cannot loop an order |
| OrderManagement.HappyPath | src/components/business/OrderManagement.jsx:55-71 | a pending order with a preparation time is taken to delivered by accept, prepare, ready and delivered; without a preparation time the board stops after accepting |
| OrderManagement.HandleStatusChange | src/components/business/OrderManagement.jsx:228-259 | the order asked for is rewritten with the requested status exactly when it exists, the write is allowed and the update succeeds; otherwise nothing changes |
| OrderManagement.HandlePrepTimeSet | src/components/business/OrderManagement.jsx:220-226 | on success the preparation time is written as given; on an error nothing changes |
| OrderManagement.OrderCard.constructor | src/components/business/OrderManagement.jsx:14-15 | three minutes on the clock, stopped, no cancel asked for, empty input |
| OrderManagement.OrderCard.Observe | src/components/business/OrderManagement.jsx:17-30 | a pending order with time left starts the countdown at the seconds it has left; a pending order out of time asks for its cancel once; any other order leaves the clock stopped |
| OrderManagement.OrderCard.Tick | src/components/business/OrderManagement.jsx:31-40 | a running clock loses a second; at its last second it stops at 0 and asks for the cancel once; a stopped clock does nothing |
| OrderManagement.OrderCard.RunTicks | src/components/business/OrderManagement.jsx:31-40 | `n` seconds of a running clock leave `start - n` seconds, or stop it at 0 with exactly one cancel request |
| OrderManagement.OrderCard.TypePrepTime | src/components/business/OrderManagement.jsx:163 | the input holds what was typed |
| OrderManagement.OrderCard.SavePrepTime | src/components/business/OrderManagement.jsx:45-51 | a positive whole number typed is written and the input emptied; anything else changes nothing |
| OrderManagement.CardTick | src/components/business/OrderManagement.jsx:31-40 | the cancel a card asks for when its clock runs out goes through the status change |
| OrderManagement.StatusWriteFacts | src/components/business/OrderManagement.jsx:232-244 | a second cancel writes nothing, "accepted" is never written over a non-pending order, a ready order can be delivered and any order not cancelled can be |
| OrderManagement.FormatTimeRoundTrip | src/components/business/OrderManagement.jsx:77-81 | the clock text `m:ss` reads back as the seconds it shows |
| OrderManagement.TotalTime | src/components/business/OrderManagement.jsx:83 | the estimate is shown exactly when there is a business and a non-zero preparation time, and otherwise the text is empty |
| OrderManagement.BusinessOrders | src/components/business/OrderManagement.jsx:200-204 | without a business none; otherwise exactly the business's orders (as a multiset), newest first |
| OrderManagement.FilteredOrders | src/components/business/OrderManagement.jsx:206-208 | the orders shown are exactly the board's orders of the chosen tab, in the board's order |
| OrderManagement.StatusTabs | src/components/business/OrderManagement.jsx:210-218 | seven tabs: all orders with the board's size, then pending, accepted, preparing, ready, delivered and cancelled in that order, each with its count; delivering has no tab |
| OrderManagement.TabsCountEveryOrder | src/components/business/OrderManagement.jsx:210-218 | the six status counts plus the delivering and unknown orders count every order once |
| OrderManagement.TabCounts | src/components/business/OrderManagement.jsx:200-218 | sorting does not change the board's size or any tab count |
| OrderManagement.StatusText | src/components/business/OrderManagement.jsx:274-285 | an unknown status is shown as stored |
| OrderManagement.ClientName | src/components/business/OrderManagement.jsx:287-290 | the name of a client with the order's client id, or "Cliente Anónimo" when none has it |
| Cart.WithQuantityChange | src/components/client/Cart.jsx:45-55 | no line is added, and the lines of other products are exactly those kept |
| Cart.ChangedLinesKept | src/components/client/Cart.jsx:46-50 | a line of the product whose new quantity is positive stays with that quantity |
| Cart.ChangedLinesCome | src/components/client/Cart.jsx:46-52 | every line of the product after the change has a positive quantity and is an old line with the change applied |
| Cart.QuantityChangeKeepsOthers | src/components/client/Cart.jsx:45-55 | the lines of other products stay, in their order |
| Cart.WithoutProduct | src/components/client/Cart.jsx:57-59 | the lines left are exactly the lines of other products |
| Cart.RemoveIsDropToZero | src/components/client/Cart.jsx:45-59 | a change that takes every line of the product to zero or below is the same as removing the product |
| Cart.SubtotalAfterChange | src/components/client/Cart.jsx:45-55 | when no line drops out, the subtotal grows by the change's value |
| Cart.ChangeValueOfOneLine | src/components/client/Cart.jsx:45-55 | with a single line of the product, the change's value is its price times the change |
| Cart.NoChangeValue | src/components/client/Cart.jsx:45-55 | a product not in the cart changes nothing in the subtotal |
| Cart.SubtotalAfterRemove | src/components/client/Cart.jsx:57-59 | removing a product lowers the subtotal by that product's amount |
| Cart.DeliveryFee | src/components/client/Cart.jsx:207-208 | no fee for an empty cart or an unknown business; otherwise the fee of the first business whose id is the first line's business, or 0 when it has none |
| Cart.Total | src/components/client/Cart.jsx:206-209 | the total is the sum of price times quantity over the lines plus the delivery fee |
| Cart.TotalBounds | src/components/client/Cart.jsx:206-209 | with non-negative prices, quantities and fees, the subtotal is between 0 and the total |
| Cart.SubtotalNonNegative | src/components/client/Cart.jsx:206 | lines of non-negative amount give a non-negative subtotal |
| Cart.Located | src/components/client/Cart.jsx:74-82 | the address takes the picked text and coordinates, with the street and city cut from the text |
| Cart.StreetIsBeforeFirstComma | src/components/client/Cart.jsx:78 | the street is the text before the first comma, or all of it without a comma |
| Cart.CityIsThirdFromLast | src/components/client/Cart.jsx:79 | the city is the trimmed third-from-last comma-separated piece |
| Cart.NoCityWithoutTwoCommas | src/components/client/Cart.jsx:79 | a text with fewer than two commas gives no city |
| Cart.OrderRecord | src/components/client/Cart.jsx:108-116 | a pending order of the user for the first line's business, with the cart's lines, the total, the address and the notes, and no courier, preparation time or rating |
| Cart.CartPage.constructor | src/components/client/Cart.jsx:22-34 | the saved cart, no notes, not submitting, an empty address at Mexico City's centre |
| Cart.CartPage.UpdateQuantity | src/components/client/Cart.jsx:45-55 | the cart becomes the changed cart |
| Cart.CartPage.RemoveItem | src/components/client/Cart.jsx:57-64 | the cart loses the product's lines |
| Cart.CartPage.ClearCart | src/components/client/Cart.jsx:66-72 | the cart is empty |
| Cart.CartPage.LocationChange | src/components/client/Cart.jsx:74-82 | the address becomes the located address |
| Cart.CartPage.Checkout | src/components/client/Cart.jsx:88-163 | nothing happens without an address or a user; otherwise the order is inserted, and only a successful insert returns it and empties the cart and the notes; never left submitting |
| BusinessDetail.NewLine | src/pages/BusinessDetailPublic.jsx:33-44 | a new cart line is the product with quantity 1 and the business's id and name |
| BusinessDetail.Incremented | src/pages/BusinessDetailPublic.jsx:40-42 | every line of the product gains one unit and every other line is unchanged |
| BusinessDetail.Added | src/pages/BusinessDetailPublic.jsx:25-47 | a cart of another business is kept when the replacement is declined and replaced by the new line when confirmed; otherwise a product already in the cart gains one unit and a new product is appended |
| BusinessDetail.AddKeepsOneBusiness | src/pages/BusinessDetailPublic.jsx:25-47 | a cart of one business stays a cart of one business, and a cart that changes holds only this business's lines |
| BusinessDetail.IncrementIsCartPlus | src/pages/BusinessDetailPublic.jsx:40-42 | adding a product already in the cart is the cart's own "+" button |
| BusinessDetail.SavedCart.constructor | src/pages/BusinessDetailPublic.jsx:27 | the cart as saved |
| BusinessDetail.SavedCart.AddToCart | src/pages/BusinessDetailPublic.jsx:25-54 | the saved cart becomes the cart with the product added |
| BusinessDetail.BusinessProducts | src/pages/BusinessDetailPublic.jsx:23 | exactly the products of the business, in stored order |
| BusinessDetail.Sections | src/pages/BusinessDetailPublic.jsx:77 | the section names are distinct and are exactly the categories of the products, "General" for those without one, listed in the order of each one's first product |
| BusinessDetail.InSection | src/pages/BusinessDetailPublic.jsx:140 | the products under a section are exactly those of its category |
| BusinessDetail.ProductUnderItsSection | src/pages/BusinessDetailPublic.jsx:77-140 | each product is listed under its own section and under no other |
| BusinessDetail.SectionsListEveryProductOnce | src/pages/BusinessDetailPublic.jsx:77-140 | the sections together list every product once |
| DeliveryMap.Step | src/components/maps/DeliveryMap.jsx:79-82 | each tick leaves 95% of the gap to the client |
| DeliveryMap.StepStaysBetween | src/components/maps/DeliveryMap.jsx:79-82 | a step lands between the old position and the client, and stays put exactly at the client |
| DeliveryMap.Remaining | src/components/maps/DeliveryMap.jsx:81-82 | the share of the gap left after `n` ticks is positive and at most 1 |
| DeliveryMap.GapAfterSteps | src/components/maps/DeliveryMap.jsx:76-92 | after `n` ticks the gap is 0.95 to the power `n` of the starting gap |
| DeliveryMap.Simulation.constructor | src/components/maps/DeliveryMap.jsx:66 | the courier's stored position, not moving |
| DeliveryMap.Simulation.Start | src/components/maps/DeliveryMap.jsx:71-75 | the simulation runs exactly for a known courier delivering between a located business and client, starting at the courier's position or else the business's |
| DeliveryMap.Simulation.Stop | src/components/maps/DeliveryMap.jsx:95-97 | the simulation stops |
| DeliveryMap.Simulation.Tick | src/components/maps/DeliveryMap.jsx:76-92 | a stopped simulation does nothing; without a position the business's is taken; otherwise one step, snapping onto the client and stopping when closer than 10 metres |
| DeliveryMap.Markers | src/components/maps/DeliveryMap.jsx:100-106 | one marker per known business and client position, and the courier's last while delivering |
| DeliveryMap.View | src/components/maps/DeliveryMap.jsx:111-121 | the "missing client" notice exactly when the client's position is unknown |
| DeliveryMap.CourierOnlyWhileDelivering | src/components/maps/DeliveryMap.jsx:100-155 | outside delivery only the business and client markers and no line; while delivering with every position known, three markers and both lines |
| DeliveryMap.MapCenter | src/components/maps/DeliveryMap.jsx:108-109 | with any marker, the centre is the midpoint of the markers' frame (inside it when the client is known); with nothing known it is Mexico City's centre |
| AdminGlobalMap.ColorOf | src/components/maps/AdminGlobalMap.jsx:14-24 | an unknown status is drawn grey |
| AdminGlobalMap.ColorsTellStatusesApart | src/components/maps/AdminGlobalMap.jsx:14-24 | two different known statuses other than pending never share a colour |
| AdminGlobalMap.StatusLabel | src/components/maps/AdminGlobalMap.jsx:35-46 | the label is "Desconocido" exactly for the unknown statuses |
| AdminGlobalMap.LabelsAreDistinct | src/components/maps/AdminGlobalMap.jsx:35-46 | equal labels of known statuses mean equal statuses |
| AdminGlobalMap.PointOf | src/components/maps/AdminGlobalMap.jsx:83-88 | the business found has the order's business id and is absent only when no business has it; the courier found has the order's courier id |
| AdminGlobalMap.MapPoints | src/components/maps/AdminGlobalMap.jsx:83-90 | the points keep the order of the orders, every point is drawable, and every order whose point is drawable has its point |
| AdminGlobalMap.PositionsOf | src/components/maps/AdminGlobalMap.jsx:93-98 | at most three positions, each with non-zero coordinates, including the business's and the courier's when usable |
| AdminGlobalMap.Positions | src/components/maps/AdminGlobalMap.jsx:93-99 | a position is framed exactly when some point adds it; at most three per point |
| AdminGlobalMap.Bounds | src/components/maps/AdminGlobalMap.jsx:100-104 | no box exactly when there are no positions; otherwise the box holds every position and each of its four edges is reached by one |
| AdminGlobalMap.MapCenter | src/components/maps/AdminGlobalMap.jsx:106 | Mexico City's centre when nothing is framed, otherwise the midpoint of the frame, which lies inside it |
| AdminGlobalMap.Center | src/components/maps/AdminGlobalMap.jsx:106 | `getCenter()` is as far from the south edge as from the north one, and from the west edge as from the east one |
| AdminGlobalMap.CenterInside | src/components/maps/AdminGlobalMap.jsx:106 | the centre of a non-empty box lies inside it |
| AdminGlobalMap.FrameHoldsEveryPosition | src/components/maps/AdminGlobalMap.jsx:92-104 | every business, client and courier position of every point lies inside the frame |
| BusinessProfile.PlanFor | src/components/business/BusinessProfile.jsx:40-60 | a file is compressed exactly when it is an image over 200 KiB, refused exactly when it is a PDF over 600 KiB, and otherwise sent as it is |
| BusinessProfile.WithoutPath | src/components/business/BusinessProfile.jsx:96 | the promotions kept are, in their order, exactly those stored under another path |
| BusinessProfile.DeleteUndoesUpload | src/components/business/BusinessProfile.jsx:68-69 | deleting the path of the promotion just appended, when no other promotion had it, gives back the list from before |
| BusinessProfile.DeleteIdempotent | src/components/business/BusinessProfile.jsx:96 | deleting the same path twice removes nothing more |
| BusinessProfile.PromotionManager.constructor | src/components/business/BusinessProfile.jsx:18-20 | no file selected, not uploading, the business's promotions as the local list |
| BusinessProfile.PromotionManager.Sync | src/components/business/BusinessProfile.jsx:22-24 | the local list becomes the stored list; nothing else changes |
| BusinessProfile.PromotionManager.HandleFileChange | src/components/business/BusinessProfile.jsx:26-30 | the first picked file becomes the selection; with no file nothing changes |
| BusinessProfile.PromotionManager.HandleUpload | src/components/business/BusinessProfile.jsx:32-89 | without a selection nothing happens; a large PDF is refused and the selection cleared; otherwise the planned file is sent, and only when storage and the business update both succeed is the promotion appended and the selection cleared; the uploading flag always ends false |
| BusinessProfile.PromotionManager.HandleDelete | src/components/business/BusinessProfile.jsx:91-101 | when storage deletes the file, the promotions under that path leave the list; on an error nothing changes |
| BusinessProfile.OrEmpty | src/components/business/BusinessProfile.jsx:160-165 | a missing or empty text becomes the empty text, any other text is kept |
| BusinessProfile.ProfileOf | src/components/business/BusinessProfile.jsx:155-173 | each form field is the stored value, or its default when missing: empty text, fee and rating 0, Mexico City's centre, closed, no promotions |
| BusinessProfile.SavedFee | src/components/business/BusinessProfile.jsx:194 | a stored fee is kept; a typed fee is the number it parses as, or 0 when it does not parse |
| BusinessProfile.TypedWholeFee | src/components/business/BusinessProfile.jsx:194 | a typed whole number is saved as that number |
| BusinessProfile.EmptyFeeIsZero | src/components/business/BusinessProfile.jsx:194 | an emptied fee field saves 0 |
| BusinessProfile.Saved | src/components/business/BusinessProfile.jsx:191-197 | the row written holds every form field, with the fee as a number |
| BusinessProfile.SaveThenLoad | src/components/business/BusinessProfile.jsx:155-197 | loading the saved row gives back the form, with the fee as the number saved |
| BusinessProfile.LoadSaveLoad | src/components/business/BusinessProfile.jsx:155-197 | a form loaded and saved without edits loads back unchanged |
| Texts.ParseFloatOfInt | src/components/business/BusinessProfile.jsx:194 | `parseFloat` reads the decimal text of a whole number back as that number |
| App.Guard | src/App.jsx:103-132 | a spinner while either loading flag is set; the root without a user; the page exactly when loaded, signed in and the role is allowed (or no roles are listed); any other user is sent to their own role's pages, or to the root when they have no role |
| App.HomeRole | src/App.jsx:149 | the stored role, or "cliente" when none is stored |
| App.RootRoute | src/App.jsx:134-149 | the loading view while the session loads, the home page without a user, and the user's role pages otherwise |
| App.RootLeadsToOwnPages | src/App.jsx:149-155 | a user with one of the four roles is sent from the root to pages whose guard shows them |
| App.RolelessUserBounces | src/App.jsx:119-129 | a user without a role is sent from the root to the client pages and from there back to the root |
| App.OtherRoleRedirected | src/App.jsx:123-127 | a user whose role the route does not list is redirected to `/<role>` |
| App.AuthModal.constructor | src/App.jsx:27-30 | the dialog starts closed, with no action and the client role |
| App.AuthModal.RequireAuth | src/App.jsx:36-40 | the action and the requested role (client by default) are stored and the dialog opens; no action runs |
| App.AuthModal.SetOpen | src/App.jsx:77 | only the open flag changes |
| App.AuthModal.HandleLogin | src/App.jsx:42-55 | on success the dialog closes and the stored action runs once; on failure nothing changes |
| App.AuthModal.HandleSignUp | src/App.jsx:57-72 | the account is requested with the recorded role; on success the dialog closes and the stored action runs once; on failure nothing changes |
| App.AuthModal.Finish | src/App.jsx:44-47 | the dialog closes and the stored action, if any, is appended to the actions run |
| HomePage.StepsAreModular | src/pages/HomePage.jsx:50-56 | both arrows keep the index among the items and agree with adding or subtracting one modulo the number of items |
| HomePage.PrevUndoesNext | src/pages/HomePage.jsx:50-56 | the left arrow undoes the right arrow and the other way round |
| HomePage.NextTimesIsModular | src/pages/HomePage.jsx:54-56 | `k` presses of the right arrow move `k` places round the circle |
| HomePage.FullRound | src/pages/HomePage.jsx:54-56 | as many presses as there are items come back to the starting item |
| HomePage.ModuloUnique | src/pages/HomePage.jsx:54-56 | the remainder is the one value in `[0, n)` that differs from `x` by a multiple of `n` (used for the carousel's wrap-around) |
| HomePage.Carousel.constructor | src/pages/HomePage.jsx:47-48 | the carousel starts at the first item |
| HomePage.Carousel.HandleNext | src/pages/HomePage.jsx:54-56 | the index moves one place right, wrapping from the last item to the first, and stays among the items |
| HomePage.Carousel.HandlePrev | src/pages/HomePage.jsx:50-52 | the index moves one place left, wrapping from the first item to the last, and stays among the items |
| HomePage.HomeFiltered | src/pages/HomePage.jsx:137-141 | the businesses kept, in stored order, are exactly those whose lowercased name or non-empty category contains the lowercased term |
| HomePage.EmptyTermKeepsAll | src/pages/HomePage.jsx:137-141 | the empty search keeps every business |
| HomePage.HomeMatchIsSearchHit | src/pages/HomePage.jsx:137-141 | every business the home search finds, the business list's search finds too |
| HomePage.BusinessOf | src/pages/HomePage.jsx:146 | the name of the first business with the product's business id when that name is not empty; "Negocio Desconocido" when no business has the id |
| HomePage.FeaturedProducts | src/pages/HomePage.jsx:143-147 | the first five products (fewer when there are fewer), in order, each with its business's label |
| HomePage.ImageNameIgnoresCase | src/pages/HomePage.jsx:152 | the image-name test ignores letter case |
| HomePage.ImagesOf | src/pages/HomePage.jsx:151-153 | exactly the image promotions of the business, each tagged with its id and name |
| HomePage.PromotionalImages | src/pages/HomePage.jsx:149-155 | an image is shown exactly when it is an image promotion of some business |
| HomePage.ImagesAreExactlyImagePromotions | src/pages/HomePage.jsx:149-155 | every image shown is an image promotion of the business it names, and every image promotion of every business is shown |
| BusinessList.DistanceTo | src/components/client/BusinessList.jsx:55-56 | a distance exists exactly when both the user's and the business's positions are known; otherwise it stands for infinity |
| BusinessList.Filtered | src/components/client/BusinessList.jsx:76-93 | the businesses kept, in stored order, are exactly those that match the search in name, category or one of their products, have the chosen category (or "all" is chosen), have an average product price inside the range and lie within the maximum distance of a known user position |
| BusinessList.EmptySearchKeepsAll | src/components/client/BusinessList.jsx:76-93 | with the empty search and "all" categories, every located business inside the price range and distance is kept, in order |
| BusinessList.NoLocationNoBusinesses | src/components/client/BusinessList.jsx:89-90 | while the user's position is unknown, no business is listed |
| BusinessList.CategoryIsExact | src/components/client/BusinessList.jsx:84 | with a category chosen, every business listed has exactly that category |
| BusinessList.NoProductsPricedZero | src/components/client/BusinessList.jsx:86 | a business with no products has average price 0 |
| BusinessList.FilterPanel.constructor | src/components/client/BusinessList.jsx:26-31 | empty search, prices 0 to 500, 20 km, all categories |
| BusinessList.FilterPanel.SetSearchTerm | src/components/client/BusinessList.jsx:125 | the search term changes and the filters do not |
| BusinessList.FilterPanel.PriceChange | src/components/client/BusinessList.jsx:95-99 | a slider value of two numbers becomes the price range; any other value changes nothing |
| BusinessList.FilterPanel.DistanceChange | src/components/client/BusinessList.jsx:101-105 | a slider value of one number becomes the maximum distance; any other value changes nothing |
| BusinessList.FilterPanel.SelectCategory | src/components/client/BusinessList.jsx:160 | only the category changes |
| BusinessList.FilterPanel.Shown | src/components/client/BusinessList.jsx:76-93 | the businesses shown keep their order and are exactly those that match the panel's current search and filters |
| StarDisplay.StarsOf | src/components/ui/StarDisplay.jsx:4-7 | as many full stars as the whole part of the rating, a half star exactly when the fraction is at least one half, and the remaining stars empty, never fewer than none |
| StarDisplay.FiveStars | src/components/ui/StarDisplay.jsx:4-7 | with the default row of five, the whole stars are the rating's integer part, and a rating of at most 5 fills exactly five places |
| StarDisplay.RowIsFull | src/components/ui/StarDisplay.jsx:5-20 | a rating within the row draws exactly `totalStars` stars |
| StarDisplay.LitStarsRoundDown | src/components/ui/StarDisplay.jsx:5-6 | the stars lit stand for the rating rounded down to the nearest half |
| StarDisplay.RatingAboveRow | src/components/ui/StarDisplay.jsx:7-20 | a rating at least one above the row draws more full stars than the row holds and no empty star |
| RatingModal.StarRating.constructor | src/components/client/RatingModal.jsx:9 | no rating and no hover at first |
| RatingModal.StarRating.Click | src/components/client/RatingModal.jsx:22 | clicking star `i` sets the rating to `i` and leaves the hover |
| RatingModal.StarRating.MouseEnter | src/components/client/RatingModal.jsx:23 | hovering star `i` sets the hover to `i` and leaves the rating |
| RatingModal.StarRating.MouseLeave | src/components/client/RatingModal.jsx:24 | leaving a star clears the hover and leaves the rating |
| RatingModal.StarRating.Lit | src/components/client/RatingModal.jsx:13-21 | five stars; while nothing is hovered the first `rating` are lit, while hovering the first `hover` are lit |
| RatingModal.Submit | src/components/client/RatingModal.jsx:39-45 | nothing can be sent exactly when both scores are 0; otherwise the payload carries both scores and the comment |
| RatingModal.NoCourierNeedsBusinessScore | src/components/client/RatingModal.jsx:64-91 | without a courier row, sending needs a business score |
| RatingModal.ViewOf | src/components/client/RatingModal.jsx:47-72 | hidden exactly without an order; the courier row exactly when there is a courier; the business's name, or "Negocio" when it is missing or empty; the courier's name when it has one |
| OrderHistory.UserOrders | src/components/client/OrderHistory.jsx:22-24 | without a user none; otherwise exactly the user's orders (as a multiset), newest first |
| OrderHistory.ActionsOf | src/components/client/OrderHistory.jsx:206-225 | tracking for orders under way, rating for delivered ones (enabled until rated), reordering for finished ones; never tracking and reordering together; a pending order has no button |
| OrderHistory.RatedOnce | src/components/client/OrderHistory.jsx:126 | storing a rating with a non-zero score disables the rate button and changes no other button |
| OrderHistory.ShownEstimate | src/components/client/OrderHistory.jsx:125-187 | the estimate is shown exactly for unfinished orders whose estimate is not "N/A", and is then minutes or the business's own text |
| OrderHistory.BusinessName | src/components/client/OrderHistory.jsx:140 | the business's name, or "Negocio Desconocido" when it is missing or empty |
| OrderHistory.StatusText | src/components/client/OrderHistory.jsx:69-80 | an unknown status is shown as written; known ones share the business board's labels except the lower-case "Listo para recoger" and "En camino" |
| OrderHistory.RatingDialog.constructor | src/components/client/OrderHistory.jsx:19-20 | closed, with no order |
| OrderHistory.RatingDialog.OpenFor | src/components/client/OrderHistory.jsx:34-37 | the order is selected and the dialog opens |
| OrderHistory.RatingDialog.Close | src/components/client/OrderHistory.jsx:39-42 | the selection is cleared and the dialog closes |
| OrderHistory.RatingDialog.Submit | src/components/client/OrderHistory.jsx:44-54 | without a selection nothing happens; otherwise the dialog closes and the orders, ratings, businesses and couriers change exactly as the store's rating operation changes them, nothing at all without a user |
| RatingModal.SubmittedMeansRated | src/components/client/RatingModal.jsx:39-45 | a payload the dialog sends, once stored on a delivered order, marks it rated and disables its rate button |
| OrderTracking.Info | src/pages/OrderTracking.jsx:45-55 | progress never passes 100, reaches 100 exactly when delivered, and a cancelled or unknown status gets the "unknown" card |
| OrderTracking.ProgressAlongPath | src/pages/OrderTracking.jsx:47-52 | progress strictly grows along pending, accepted, preparing, ready, delivering, delivered |
| OrderTracking.ProgressFollowsStage | src/pages/OrderTracking.jsx:47-52 | on that path, more progress means exactly a later stage |
| OrderTracking.OrderMessages | src/pages/OrderTracking.jsx:26-28 | exactly the order's quick messages (as a multiset), oldest first |
| OrderTracking.TrackedCourier | src/pages/OrderTracking.jsx:19-21 | the courier shown is the one the order names, found whenever the order names a known courier |
| OrderTracking.TrackedBusiness | src/pages/OrderTracking.jsx:22-24 | the business shown is the order's, found whenever the order names a known business |
| OrderTracking.CourierCard | src/pages/OrderTracking.jsx:95 | the courier card appears exactly when the courier is known and the order is on its way |
| OrderTracking.TrackingScreen | src/pages/OrderTracking.jsx:41-43 | once loaded, with the order found and its business found, the tracking view shows exactly that order and business; while loading or without the order only the waiting text |
| OrderTracking.GoesBack | src/pages/OrderTracking.jsx:30-39 | the page goes back exactly when loading has finished and no order has the id |
| OrderTracking.GoingBackShowsNothing | src/pages/OrderTracking.jsx:30-43 | a page that goes back shows only the waiting text, and a page that tracks never goes back |
| BusinessStats.OwnBusiness | src/components/business/BusinessStats.jsx:14 | the business shown is the signed-in user's, found whenever one has the user's id |
| BusinessStats.OrdersOf | src/components/business/BusinessStats.jsx:15 | without a business none; otherwise exactly the business's orders, in stored order |
| BusinessStats.RevenueOfOneMore | src/components/business/BusinessStats.jsx:18 | one more order adds its price to the revenue exactly when it is delivered |
| BusinessStats.RevenueBounds | src/components/business/BusinessStats.jsx:18 | with non-negative prices, the revenue lies between 0 and the sum of all prices |
| BusinessStats.AverageAtMostHighest | src/components/business/BusinessStats.jsx:18-20 | the average order value lies between 0 and the highest price |
| BusinessStats.RevenueAtMost | src/components/business/BusinessStats.jsx:18 | the revenue is at most the number of orders times the highest price |
| BusinessStats.Items | src/components/business/BusinessStats.jsx:30 | the lines gathered are exactly the lines of the orders |
| BusinessStats.ItemsFlatten | src/components/business/BusinessStats.jsx:30 | the gathered lines of two order lists are those of the first followed by those of the second, and one order gives exactly its own lines: no line is duplicated, dropped or reordered |
| BusinessStats.ProductsSoldFacts | src/components/business/BusinessStats.jsx:30-33 | one entry per product name sold, each holding the total quantity of its lines; the entries add up to all quantities |
| BusinessStats.TopProducts | src/components/business/BusinessStats.jsx:35-38 | at most five products, from the tallies, by decreasing quantity, none selling less than one left out |
| BusinessStats.StatusCountsAddUp | src/components/business/BusinessStats.jsx:40-45 | one entry per status present, each counting its orders; the counts add up to the number of orders |
| BusinessStats.StatsCards | src/components/business/BusinessStats.jsx:18-28 | the order count matches the status chart, the revenue is that of the delivered orders, the average is revenue over count (0 without orders), and the rating is the business's or 0 |
| DeliveryHistory.CompletedDeliveries | src/components/delivery/DeliveryHistory.jsx:13-16 | without a courier none; otherwise exactly the courier's delivered orders (as a multiset), newest first |
| DeliveryHistory.EarningsAreFifteenPercent | src/components/delivery/DeliveryHistory.jsx:18 | the earnings are 15% of the prices of the deliveries |
| DeliveryHistory.CountersMatchHistory | src/components/delivery/ActiveDeliveries.jsx:46-53 | a courier credited for the same delivered orders, starting from no counters, has the history's count and earnings |
| DeliveryHistory.DaysAddUp | src/components/delivery/DeliveryHistory.jsx:22-27 | one entry per day, each holding the earnings of that day's deliveries; the days add up to the total earnings |
| DeliveryHistory.ChartData | src/components/delivery/DeliveryHistory.jsx:29-31 | the day entries in reverse order |
| DeliveryHistory.ChartShowsAll | src/components/delivery/DeliveryHistory.jsx:29-31 | the chart has one bar per day and its bars add up to the total earnings |
| DeliveryHistory.HistoryCards | src/components/delivery/DeliveryHistory.jsx:18-20 | the count of deliveries, 15% of their prices, and earnings over count (0 without deliveries) |
| GlobalStats.Combined | src/components/admin/GlobalStats.jsx:11 | the archived orders first, then the live ones |
| GlobalStats.RevenueSplits | src/components/admin/GlobalStats.jsx:13-15 | the revenue is every archived price plus the live orders that are delivered or whose id is archived |
| GlobalStats.ArchivedAllCount | src/components/admin/GlobalStats.jsx:14 | every archived record counts towards the revenue |
| GlobalStats.LiveCount | src/components/admin/GlobalStats.jsx:14 | a live order counts exactly when it is delivered or its id is archived |
| GlobalStats.StatsCards | src/components/admin/GlobalStats.jsx:13-26 | the revenue as split above, archived plus live orders, all three kinds of user, and the live orders on their way |
| GlobalStats.HourBuckets | src/components/admin/GlobalStats.jsx:34-37 | twenty-four buckets, one per hour in order |
| GlobalStats.BucketsCountEveryOrder | src/components/admin/GlobalStats.jsx:28-37 | each hour's bucket counts the orders created in that hour, and the buckets add up to all orders |
| GlobalStats.EveryHourListed | src/components/admin/GlobalStats.jsx:34 | the hours listed are distinct and hold the hour of every order |
| GlobalStats.BusinessCounts | src/components/admin/GlobalStats.jsx:39-43 | an order is labelled with the name of the first business with its id, or "Desconocido" when that business has no name or no business has its id; one entry per label, adding up to all orders |
| GlobalStats.LabelOfFirstBusiness | src/components/admin/GlobalStats.jsx:40 | the label is the name of the first business with the order's business id, "Desconocido" when that name is empty |
| GlobalStats.TopBusinesses | src/components/admin/GlobalStats.jsx:45-48 | ten labels, or all of them when there are fewer, from the tallies, by decreasing count, none with fewer orders than one left out |
| ActiveDeliveries.Active | src/components/delivery/ActiveDeliveries.jsx:23-27 | without a courier none; otherwise exactly the courier's orders that are on their way, in stored order |
| ActiveDeliveries.AcceptedIsActive | src/components/delivery/AvailableOrders.jsx:21-34 | an order a courier accepts shows among that courier's active deliveries |
| ActiveDeliveries.HandleSendQuickMessage | src/components/delivery/ActiveDeliveries.jsx:37-44 | the message goes to the order's client, and is stored exactly when a user is signed in and the insert succeeds |
| ActiveDeliveries.Credited | src/components/delivery/ActiveDeliveries.jsx:49-53 | one more delivery and the 15% commission added, missing counters counted as 0 |
| ActiveDeliveries.HandleCompleteDelivery | src/components/delivery/ActiveDeliveries.jsx:46-59 | the order becomes delivered and the courier is credited, each when its update succeeds |
| ActiveDeliveries.CompletedIsNotActive | src/components/delivery/ActiveDeliveries.jsx:24-27 | a completed order leaves the active list |
| ActiveDeliveries.CountersAddUp | src/components/delivery/ActiveDeliveries.jsx:49-53 | crediting a courier with no counters for some orders leaves their count and the sum of their commissions |
| ActiveDeliveries.ContactClient | src/components/delivery/ActiveDeliveries.jsx:61-74 | with the first client of the order's client id: a filled phone is dialled when confirmed and nothing happens when declined; an empty or missing phone, or no such client, gives the "not available" notice |
| AvailableOrders.FindCourier | src/components/delivery/AvailableOrders.jsx:16 | the courier is the signed-in user's, found whenever one has the user's id |
| AvailableOrders.Pool | src/components/delivery/AvailableOrders.jsx:17-19 | exactly the ready orders that have no courier, in stored order |
| AvailableOrders.HandleAcceptOrder | src/components/delivery/AvailableOrders.jsx:21-40 | a courier who is missing or offline changes nothing; otherwise, when the update succeeds, the order is on its way with that courier |
| AvailableOrders.AcceptLeavesPool | src/components/delivery/AvailableOrders.jsx:17-34 | an accepted order leaves the pool, and every other order keeps its place in or out of it |
| AvailableOrders.Commission | src/components/delivery/AvailableOrders.jsx:46-48 | the commission is 15% of the order total, and no more than the total when that is not negative |
| AvailableOrders.EtaShown | src/components/delivery/AvailableOrders.jsx:107-135 | an estimate that is shown is minutes or the business's own text |

## Left out

- Backend I/O: selects, inserts, updates, deletes, storage and authentication are not modelled as calls. Each is an outcome flag, and the local tables are taken to be what the database holds.
- The change subscription and the full refetch after every change are not modelled.
- Two couriers accepting the same order at once: accept has no write-time re-check, and concurrent requests are not modelled.
- Distances: the haversine formula in the business list and Leaflet's `distanceTo` on the delivery map are one abstract distance function.
- `toFixed` rounding is not modelled: neither for shown amounts and distances, nor for the mean score `addRating` stores as a business's or courier's rating with `avg.toFixed(1)`. `DataStore.Store.AddRating` stores the exact mean.
- `parseFloat(order.total_price)` is taken to give the stored price as a real.
- The random distance and minutes shown for available orders are not modelled: they come from `Math.random`.
- Locale formatting of dates and the clock: the `es-ES` date keys of the courier's earnings, the hour keys of the statistics and the current time are parameters.
- Map rendering, address search and the location picker are not modelled: they need reverse geocoding, browser geolocation and marker dragging.
- Image compression is an abstract function. Its failures are not modelled.
- Foreign links and libraries are not modelled: the WhatsApp message and link, `tel:` links, the Google Maps directions URL, `window.open` and the class-name helper `cn`.
- Persistence: the cart's copy in `localStorage` and the `cartUpdated` event are not modelled; the saved cart is a value.
- Thin pages that only wrap other parts: the realtime map's today filter, the data-management page around the purge, the admin route table and the reload button.
- Presentation: markup, styling, animations and toasts, except where a toast marks an error branch.
- Status colours of the order history and order management badges are not modelled. Only the administrator map's marker colours are.
- The order id shortened to eight characters for display is not modelled.
- Profile form edits other than the delivery fee are not modelled: the open toggle, the location change from the picker and the text fields. The form is a value that `ProfileOf` fills and `Saved` writes back.
- The star click on the order tracking page is not modelled: it only holds a local rating and shows a toast.
- The metadata call on the signed-in user that `updateBusiness` also makes is not modelled.
- The client name looked up for each point of the administrator map is not modelled: it is only shown in a popup.
- The carousel's item list is taken as fixed while its index persists. A list that shrinks under the index is not modelled.
- The `from` location remembered by the protected route's redirect is not modelled.
- Lower-casing is defined on ASCII letters and the Latin-1 accented letters. Other scripts' case folding is not modelled.
- `parseInt` is modelled on whole numbers of any size. JavaScript's loss of precision above 2^53 is not.
- `parseFloat` is modelled on finite decimals: an optional sign, digits with an optional fraction, and an optional exponent. The text "Infinity" is read as no number, because reals have no infinity.
- The order of `Object.entries` is insertion order. JavaScript puts integer-like keys first; the keys counted here (hours, date texts, product names, business names) are taken not to rely on that.
- Keys inherited from the object prototype in the colour and label maps are not modelled. Any unknown status gets the default colour and label.
- Slider values are a sequence, so the `Array.isArray` test on them is not modelled.
- `StarDisplay.StarsOf`: its requires excludes negative ratings. For those `Math.floor` gives a negative count, `Array` of a negative length throws a `RangeError` (src/components/ui/StarDisplay.jsx:5,11), and the component draws nothing.
- The status change handler writes "cancelled" over any status other than pending and cancelled, a delivered order included (src/components/business/OrderManagement.jsx:232-237), and the order filter of the business page has no tab for orders on the way (src/components/business/OrderManagement.jsx:210-218). The model keeps both.
