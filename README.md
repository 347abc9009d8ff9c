# LojixApp front-end core in Dafny

LojixApp is a React front end for a small electronics shop. It has a customer
storefront with a cart and a checkout, and a public catalog. Its dashboard holds:
two point-of-sale screens, customer, product and stock registers, a profit
calculator, a serialized inventory, a CRM, catalog customization and the sidebar
menu. The subscription page sells the plans with a PIX payment on a 15-minute
countdown.

This project models the logic behind those screens. Each component's state
becomes a Dafny `class` whose fields the handlers reassign. The arrays the
handlers rebuild (`map`, `filter`, spread-append) become `seq` fields. The
derived values (`filteredProducts`, totals, `stats`, the grouping of the menu)
become functions with lemmas about them. Buttons that the page disables or only
renders in one state become `requires` on the matching method, and each of
those is cited in the table below.

Shared modules:

- `Wrappers`: `Option`.
- `Seqs`: `filter`, `find` and `reduce` sums.
- `Text`: `toLowerCase`, `includes`, `split`/`join` and whitespace removal.
- `Numbers`: `parseInt`/`parseFloat`, `toString`, `padStart`, `Math.round`,
  and numbers that may be NaN.
- `Catalog`: the product card record, its search and category filter, and the
  favourites toggle shared by the three catalogue pages.

Money is a `real`. A JavaScript number that can become NaN or Infinity is a
`Numbers.Number`, either `Finite(value)` or `NotFinite`.

## Model

| member | source | states |
|---|---|---|
| Catalog.FilteredProductsExact | src/components/store/ModernStorefront.tsx:160-167 | a product is listed iff it is in the catalogue and matches both the case-insensitive search (name or description) and the category chip; the listing keeps catalogue order |
| Catalog.FilterNothing | src/components/store/ModernStorefront.tsx:160-167 | an empty search under the "all" chip lists the whole catalogue unchanged |
| Catalog.AllChipIsSearchOnly | src/components/store/ModernStorefront.tsx:163-165 | under the "all" chip the listing is exactly the search filter |
| Catalog.CountMatchesSelection | src/components/store/ModernStorefront.tsx:152-158 | a chip's count equals the number of products listed when that chip is selected with an empty search, and never exceeds the catalogue size |
| Catalog.ToggledMembership | src/components/store/ModernStorefront.tsx:211-217 | toggling a favourite flips that id's membership and no other id's |
| Catalog.ToggledTwice | src/components/store/ModernStorefront.tsx:211-217 | toggling twice restores the set of favourites, and the very same list when the id was absent |
| ModernStorefront.Incremented | src/components/store/ModernStorefront.tsx:178-182 | the `map` that adds a unit keeps the cart's length |
| ModernStorefront.AddNewProduct | src/components/store/ModernStorefront.tsx:184-193 | adding a product not in the cart appends one line of one unit capped at the product's stock, keeps every other line, and raises the total by the price and the item count by one |
| ModernStorefront.AddExistingProduct | src/components/store/ModernStorefront.tsx:174-183 | adding a product already in the cart adds exactly one unit to its line while below stock (total up by the price, count up by one), and otherwise leaves the cart unchanged |
| ModernStorefront.AddKeepsIdsUnique | src/components/store/ModernStorefront.tsx:172-195 | adding never creates two lines with the same id |
| ModernStorefront.RemoveSpec | src/components/store/ModernStorefront.tsx:207-209 | removing keeps exactly the lines with other ids, in order; ids stay unique; the total drops by the removed line's total |
| ModernStorefront.UpdateQuantitySpec | src/components/store/ModernStorefront.tsx:197-205 | a non-zero quantity (negative included) becomes the line's quantity as the smaller of it and the line's `maxStock` (`Math.min`, line 201); every other field of the line and every other line are kept |
| ModernStorefront.UpdateKeepsInvariant | src/components/store/ModernStorefront.tsx:197-205 | updating keeps ids unique and lines within their caps; exactly 0 removes the line |
| ModernStorefront.Storefront.constructor | src/components/store/ModernStorefront.tsx:55-61 | the page starts with the catalogue, an empty cart, no favourites, the cart sheet closed and no checkout shown |
| ModernStorefront.Storefront.AddToCart | src/components/store/ModernStorefront.tsx:172-195 | the cart becomes the added cart; the invariant (unique ids, lines within the stock of their product) holds; favourites unchanged |
| ModernStorefront.Storefront.UpdateCartQuantity | src/components/store/ModernStorefront.tsx:197-205 | the cart becomes the updated cart and keeps the invariant; favourites unchanged |
| ModernStorefront.Storefront.RemoveFromCart | src/components/store/ModernStorefront.tsx:207-209 | the cart loses that id's line and keeps the invariant; favourites unchanged |
| ModernStorefront.Storefront.ToggleFavorite | src/components/store/ModernStorefront.tsx:211-217 | favourites become the toggled list; the cart is unchanged |
| ModernStorefront.Storefront.SetCartOpen | src/components/store/ModernStorefront.tsx:321 | the cart sheet opens or closes |
| ModernStorefront.Storefront.BeginCheckout | src/components/store/ModernStorefront.tsx:231-234 | from "Finalizar Compra" (shown in the open sheet only for a non-empty cart, line 341) the sheet closes and the checkout form is shown |
| ModernStorefront.Storefront.CheckoutBack | src/components/store/ModernStorefront.tsx:247 | the form's back button returns to the store with the cart kept |
| ModernStorefront.Storefront.CheckoutSucceeded | src/components/store/ModernStorefront.tsx:248-252 | a placed order empties the cart and returns to the store; the cart invariant holds |
| CheckoutForm.TotalAtLeastShipping | src/components/checkout/CheckoutComponent.tsx:43-45 | with non-negative lines the total is at least the R$ 15,90 shipping, and an empty cart costs exactly the shipping |
| CheckoutForm.WithFieldSpec | src/components/checkout/CheckoutComponent.tsx:133-176 | each address input sets its own field and leaves the other five unchanged |
| CheckoutForm.Checkout.SetShippingField | src/components/checkout/CheckoutComponent.tsx:133-176 | typing in one of the six address inputs (`onChange` at lines 133, 141, 150, 159, 167, 176) sets that field to the typed value and keeps the other five (`WithField`, proved in `WithFieldSpec`) |
| CheckoutForm.Checkout.constructor | src/components/checkout/CheckoutComponent.tsx:30-41 | PIX selected, no code, nothing copied, not processing, blank address |
| CheckoutForm.Checkout.SetPaymentMethod | src/components/checkout/CheckoutComponent.tsx:192-200 | the payment method becomes the chosen one |
| CheckoutForm.Checkout.PixCodeReady | src/components/checkout/CheckoutComponent.tsx:57-59 | the delayed code generation stores the code |
| CheckoutForm.Checkout.CopyPix | src/components/checkout/CheckoutComponent.tsx:63-65 | copying turns the "copied" indicator on |
| CheckoutForm.Checkout.CopyFeedbackElapsed | src/components/checkout/CheckoutComponent.tsx:66 | two seconds later the indicator goes off |
| CheckoutForm.Checkout.FinalizePurchase | src/components/checkout/CheckoutComponent.tsx:69-71 | from the enabled button (line 305: not processing, and a PIX code present when paying by PIX) processing starts and the button is disabled |
| CheckoutForm.Checkout.ProcessingElapsed | src/components/checkout/CheckoutComponent.tsx:72-74 | `onSuccess` is only reached after processing started |
| PosWizard.TotalSign | src/components/pos/POSSystemNew.tsx:98-104 | the total is negative iff the discount exceeds the subtotal; with non-negative prices the subtotal is non-negative |
| PosWizard.AddSpec | src/components/pos/POSSystemNew.tsx:69-80 | a new product is appended with quantity 1, an existing line gains exactly one unit; ids stay unique and quantities positive |
| PosWizard.UpdateSpec | src/components/pos/POSSystemNew.tsx:82-96 | a quantity of 0 or less removes exactly that id's line; otherwise exactly that quantity is stored; ids stay unique, quantities positive |
| PosWizard.FilteredProductsSpec | src/components/pos/POSSystemNew.tsx:106-109 | a product is listed iff it matches by name or code case-insensitively, in order; an empty search lists all |
| PosWizard.StepAfterNext | src/components/pos/POSSystemNew.tsx:131-135 | next stays within steps 1..4 and moves forward iff the step is below 4 |
| PosWizard.StepAfterPrev | src/components/pos/POSSystemNew.tsx:137-141 | previous stays within 1..4 and moves back iff the step is above 1 |
| PosWizard.Wizard.constructor | src/components/pos/POSSystemNew.tsx:29-35 | step 1, empty cart, no customer, no payment method, no discount, dialog closed |
| PosWizard.Wizard.AddToCart | src/components/pos/POSSystemNew.tsx:69-80 | from the "+" of an in-stock product (line 227) the cart becomes the added cart; the wizard invariant holds |
| PosWizard.Wizard.RemoveFromCart | src/components/pos/POSSystemNew.tsx:82-84 | the cart loses the id's line; the invariant holds |
| PosWizard.Wizard.UpdateQuantity | src/components/pos/POSSystemNew.tsx:86-96 | the cart becomes the updated cart; the invariant holds |
| PosWizard.Wizard.SetDiscount | src/components/pos/POSSystemNew.tsx:294 | the discount is `parseFloat(input) \|\| 0`, with no bound |
| PosWizard.Wizard.SelectCustomer | src/components/pos/POSSystemNew.tsx:352 | the clicked customer becomes the selection |
| PosWizard.Wizard.SetPaymentMethod | src/components/pos/POSSystemNew.tsx:408 | the clicked method becomes the payment method |
| PosWizard.Wizard.NextStep | src/components/pos/POSSystemNew.tsx:131-135 | from an enabled "Continuar" (lines 320, 379, 438) the step advances by one, and each step is reached only with a non-empty cart, then a customer, then a payment method |
| PosWizard.Wizard.PrevStep | src/components/pos/POSSystemNew.tsx:137-141 | only the step moves back; everything entered is kept |
| PosWizard.Wizard.CompleteSale | src/components/pos/POSSystemNew.tsx:111-120 | the logged sale has a non-empty cart, a customer, a payment method, and total = subtotal - discount |
| PosWizard.Wizard.ResetSale | src/components/pos/POSSystemNew.tsx:122-129 | everything returns to the initial state |
| PosRegister.AddSpec | src/components/pos/POSSystem.tsx:53-71 | a new product gets a one-unit line, an existing line one more unit; ids unique, quantities positive |
| PosRegister.UpdateSpec | src/components/pos/POSSystem.tsx:73-88 | 0 or less removes exactly that id's line; otherwise exactly that quantity is set; ids unique, quantities positive |
| PosRegister.TotalBounds | src/components/pos/POSSystem.tsx:90-92 | with non-negative prices and a discount between 0 and 100 percent the total lies between 0 and the subtotal |
| PosRegister.TenPercentExample | src/components/pos/POSSystem.tsx:90-92 | one phone at 4200 and two cables at 25 make 4250, and 10% off gives 3825 |
| PosRegister.SelectedBy | src/components/pos/POSSystem.tsx:224-228 | the select picks the first customer with that id, nobody iff no customer has it, and nobody for the empty option |
| PosRegister.Register.constructor | src/components/pos/POSSystem.tsx:36-39 | empty sale, no customer, PIX, no discount |
| PosRegister.Register.AddToSale | src/components/pos/POSSystem.tsx:53-71 | the sale becomes the added sale; ids unique, quantities positive |
| PosRegister.Register.RemoveFromSale | src/components/pos/POSSystem.tsx:73-75 | the sale loses the id's line; the invariant holds |
| PosRegister.Register.UpdateQuantity | src/components/pos/POSSystem.tsx:77-88 | the sale becomes the updated sale; the invariant holds |
| PosRegister.Register.SelectCustomer | src/components/pos/POSSystem.tsx:224-228 | the selection becomes `SelectedBy` of the chosen value |
| PosRegister.Register.SetDiscount | src/components/pos/POSSystem.tsx:264 | the percentage is stored as typed, without clamping |
| PosRegister.Register.SetPaymentMethod | src/components/pos/POSSystem.tsx:248 | the chosen method is stored |
| PosRegister.Register.CompleteSale | src/components/pos/POSSystem.tsx:94-112 | an empty sale changes nothing; otherwise the receipt carries items, customer, method, subtotal, discount amount and total, and the sale, customer and discount are cleared while the method is kept |
| SubscriptionCheckout.PlanFor | src/pages/Checkout.tsx:42 | a plan is found iff the route id is basic, professional or enterprise |
| SubscriptionCheckout.PriceAndSavings | src/pages/Checkout.tsx:114-115 | yearly price plus savings is twelve monthly prices; monthly billing saves nothing |
| SubscriptionCheckout.Tick | src/pages/Checkout.tsx:45-63 | one firing removes one second, and returns to the summary iff at most one second was left |
| SubscriptionCheckout.CountdownRuns | src/pages/Checkout.tsx:45-63 | from t seconds the code is still pending with t-k seconds after k < t firings, and is back on the summary at 0 after t |
| SubscriptionCheckout.ExpiresOnLastTick | src/pages/Checkout.tsx:80-82 | a fresh 900-second code survives 899 firings and expires on the 900th |
| SubscriptionCheckout.TwoDigitsSpec | src/pages/Checkout.tsx:69 | a padded number below 100 is two digits reading back as the number |
| SubscriptionCheckout.FormatTimeRoundTrip | src/pages/Checkout.tsx:66-70 | below 100 minutes `formatTime` prints five characters that read back as the same number of seconds |
| SubscriptionCheckout.PaymentPage.constructor | src/pages/Checkout.tsx:42 | the plan comes from the route; monthly billing, summary step, 900 seconds |
| SubscriptionCheckout.PaymentPage.SetBillingCycle | src/pages/Checkout.tsx:153-160 | on the summary the billing cycle is set |
| SubscriptionCheckout.PaymentPage.GeneratePayment | src/pages/Checkout.tsx:80-95 | from the summary the payment step starts at 900 seconds and one confirmation is scheduled |
| SubscriptionCheckout.PaymentPage.SecondElapsed | src/pages/Checkout.tsx:45-63 | the clock follows `Tick`, and the expiry notice is raised iff at most one second was left |
| SubscriptionCheckout.PaymentPage.ConfirmPayment | src/pages/Checkout.tsx:85-90 | a scheduled confirmation moves the page to success |
| SubscriptionCheckout.PaymentPage.Back | src/pages/Checkout.tsx:126 | from the summary the page is left; from any other step it returns to the summary |
| Customers.FilteredCustomersSpec | src/components/customers/CustomerManager.tsx:94-98 | a customer is listed iff the lower-cased name contains the lower-cased term, or the CPF or phone contains the raw term; register order is kept; an empty search lists everyone |
| Customers.TotalPurchasesSpec | src/components/customers/CustomerManager.tsx:130-132 | no purchases total 0, a further purchase adds its total, non-negative purchases give a non-negative total |
| Customers.NewCustomer | src/components/customers/CustomerManager.tsx:102-109 | the new record has the given id, the form's name and CPF, today's date, status active and no purchases |
| Customers.SeedCustomers | src/components/customers/CustomerManager.tsx:26-72 | the seeded customers are numbered 1, 2, ... in order |
| Customers.CustomerManager.constructor | src/components/customers/CustomerManager.tsx:26-92 | seeded list, blank form, form closed |
| Customers.CustomerManager.OpenAddCustomer | src/components/customers/CustomerManager.tsx:160 | the form opens |
| Customers.CustomerManager.EditForm | src/components/customers/CustomerManager.tsx:253-394 | the form holds the edit |
| Customers.CustomerManager.AddCustomer | src/components/customers/CustomerManager.tsx:100-128 | a customer is added iff name and CPF are filled; it is appended with id length+1, the form is reset and closed; ids stay 1..n; otherwise nothing changes |
| Products.NewProduct | src/components/products/ProductManager.tsx:68-74 | the record has the given id, the form's name, control type, description, condition, brand and category, the `parseFloat` price, the `parseInt(...) \|\| 0` warranty and status active |
| Products.WarrantyText | src/components/products/ProductManager.tsx:108 | the warranty text is the typed text, or a non-empty default |
| Products.GeneratedDescriptionSpec | src/components/products/ProductManager.tsx:105-111 | the generated text starts with the product name and ends with the warranty and " meses."; a blank warranty prints 12 |
| Products.SeedProducts | src/components/products/ProductManager.tsx:26-36 | the seeded products are numbered 1, 2, ... |
| Products.SeedBrands | src/components/products/ProductManager.tsx:38-43 | the seeded brands are numbered 1, 2, ... |
| Products.SeedCategories | src/components/products/ProductManager.tsx:45-50 | the seeded categories are numbered 1, 2, ... |
| Products.ProductManager.constructor | src/components/products/ProductManager.tsx:26-65 | seeded registers and blank forms |
| Products.ProductManager.EditProductForm | src/components/products/ProductManager.tsx:143-246 | the product form holds the edit |
| Products.ProductManager.EditBrandForm | src/components/products/ProductManager.tsx:335-345 | the brand form holds the edit |
| Products.ProductManager.EditCategoryForm | src/components/products/ProductManager.tsx:404-414 | the category form holds the edit |
| Products.ProductManager.AddProduct | src/components/products/ProductManager.tsx:66-89 | added iff name, price and control type are filled; then the product built by `NewProduct` with id length+1 is appended and the form is cleared; brands and categories unchanged; ids stay 1..n |
| Products.ProductManager.AddBrand | src/components/products/ProductManager.tsx:91-96 | added iff the name is filled; appended with id length+1, form cleared; ids stay 1..n |
| Products.ProductManager.AddCategory | src/components/products/ProductManager.tsx:98-103 | added iff the name is filled; appended with id length+1, form cleared; ids stay 1..n |
| Products.ProductManager.GenerateDescription | src/components/products/ProductManager.tsx:105-111 | with a name only the description changes, to the generated text; without one nothing changes |
| Stock.FinalPriceSpec | src/components/stock/StockManager.tsx:69-70 | a 0% margin is the plain conversion; for a positive conversion a larger margin gives a larger price; the margin can be read back from the price |
| Stock.FinalPriceOf | src/components/stock/StockManager.tsx:69-70 | the price is a finite number iff all three inputs parsed, and then equals the formula |
| Stock.IdText | src/components/stock/StockManager.tsx:200 | the printed id is non-empty and starts with '-' iff the id is negative |
| Stock.IdTextInjective | src/components/stock/StockManager.tsx:194-200 | different ids print differently |
| Stock.Selected | src/components/stock/StockManager.tsx:194 | `find` picks the first item whose id prints as the value; nothing is picked iff no id prints so |
| Stock.SelectOwnId | src/components/stock/StockManager.tsx:194-200 | with distinct ids, choosing an item's option selects that item |
| Stock.StockManager.constructor | src/components/stock/StockManager.tsx:26-64 | seeded items, nothing selected, blank entry and calculator |
| Stock.StockManager.SelectProduct | src/components/stock/StockManager.tsx:194 | the selection becomes `Selected` of the value |
| Stock.StockManager.EditEntry | src/components/stock/StockManager.tsx:223-253 | the entry form holds the edit |
| Stock.StockManager.EditPriceInputs | src/components/stock/StockManager.tsx:287-310 | the three inputs change and the last result is kept |
| Stock.StockManager.CalculatePrice | src/components/stock/StockManager.tsx:66-73 | with all three inputs filled the result becomes `FinalPriceOf` the parsed inputs; otherwise nothing changes |
| Stock.StockManager.StockEntry | src/components/stock/StockManager.tsx:75-85 | accepted iff a product is picked and a cost typed; then the form and selection are cleared, otherwise unchanged |
| Financial.ProfitAndMarginSpec | src/components/financial/FinancialManager.tsx:53-54 | cost + expenses + profit = sale price; margin x price / 100 = profit; for a positive price the margin's sign is the profit's, and it is 100% iff cost and expenses sum to 0 |
| Financial.ProfitOf | src/components/financial/FinancialManager.tsx:49-53 | the profit is finite iff cost and price parsed, and then it is price - cost - (expenses or 0) |
| Financial.BlankExpensesCountAsZero | src/components/financial/FinancialManager.tsx:51 | blank or unparsable expenses give the same profit as 0 |
| Financial.MarginOf | src/components/financial/FinancialManager.tsx:54 | the margin is finite iff profit and price are and the price is non-zero, and then equals the margin formula |
| Financial.FinancialManager.constructor | src/components/financial/FinancialManager.tsx:38-44 | blank inputs, profit and margin 0 |
| Financial.FinancialManager.EditInputs | src/components/financial/FinancialManager.tsx:294-318 | the three inputs change and the results are kept |
| Financial.FinancialManager.CalculateProfit | src/components/financial/FinancialManager.tsx:47-61 | with cost and price typed, profit and margin become `ProfitOf`/`MarginOf` of the parsed inputs; otherwise nothing changes |
| Inventory.FilteredUnitsSpec | src/components/inventory/SerializedInventory.tsx:67-74 | a unit is listed iff it passes the search (model or serial), the category and the status tests, in order; with no filters all are listed |
| Inventory.MarginSpec | src/components/inventory/SerializedInventory.tsx:89-91 | applying the margin to the purchase price gives the sale price; for a positive purchase price the margin is positive iff the sale price is higher |
| Inventory.StatusPartition | src/components/inventory/SerializedInventory.tsx:93-98 | available, sold and reserved counts add up to the total |
| Inventory.TotalValueSpec | src/components/inventory/SerializedInventory.tsx:97 | the stock value sums the sale prices of available units only, and is non-negative for non-negative prices |
| Inventory.SeedStats | src/components/inventory/SerializedInventory.tsx:37-61 | the seeded stock has 2 units, 1 available, 1 sold, worth 4200 |
| Crm.FilteredCustomersSpec | src/components/crm/CRMSystem.tsx:98-102 | a customer is listed iff the name or a present e-mail matches case-insensitively or the WhatsApp contains the raw term; order is kept; an empty search lists all |
| Crm.LevelSpec | src/components/crm/CRMSystem.tsx:104-109 | the level is the highest one whose threshold is reached, and never drops as the amount spent grows |
| Crm.StatsSpec | src/components/crm/CRMSystem.tsx:111-118 | the average ticket is finite iff there are customers, and then times their number is the revenue; non-negative amounts give non-negative figures |
| Crm.TicketSpec | src/components/crm/CRMSystem.tsx:303 | the ticket is finite iff the customer has purchases, and then it is the whole number t with (t-0.5)*n <= spent < (t+0.5)*n |
| Crm.SeedFigures | src/components/crm/CRMSystem.tsx:45-118 | the seeded customers are VIP and Fiel, with revenue 16400, average 8200 and first ticket 4200 |
| PublicCatalog.Chips | src/components/catalog/PublicCatalog.tsx:118-123 | four chips, the first selecting everything and counting the catalogue |
| PublicCatalog.ChipsSpec | src/components/catalog/PublicCatalog.tsx:118-132 | every chip counts exactly the products listed when it is selected with an empty search |
| PublicCatalog.SeedChips | src/components/catalog/PublicCatalog.tsx:43-123 | the seeded chips read 5, 2, 1 and 2 |
| PublicCatalog.WhatsAppMessageSpec | src/components/catalog/PublicCatalog.tsx:150-153 | both messages name the product in bold; the available one quotes the formatted price; the unavailable one ignores price and formatter |
| PublicCatalog.WhatsAppLinkSpec | src/components/catalog/PublicCatalog.tsx:150-155 | the link splits at '?' into the wa.me base with the number and `text=` with the encoded message |
| PublicCatalog.BadgesSpec | src/components/catalog/PublicCatalog.tsx:256-267 | "Indisponível" and "Últimas unidades" never show together; the latter needs stock shown, availability and at most 5 units |
| PublicCatalog.PublicCatalog.constructor | src/components/catalog/PublicCatalog.tsx:30-41 | the props are stored; empty search, "all" chip, no favourites |
| PublicCatalog.PublicCatalog.SetSearchTerm | src/components/catalog/PublicCatalog.tsx:194 | the search term is stored |
| PublicCatalog.PublicCatalog.SelectCategory | src/components/catalog/PublicCatalog.tsx:206 | the chip is stored |
| PublicCatalog.PublicCatalog.ToggleFavorite | src/components/catalog/PublicCatalog.tsx:134-140 | the heart flips that product's membership and no other's |
| ProductGrid.SeedLowStock | src/components/catalog/ProductGrid.tsx:28-108 | in the seeded grid only the MacBook carries the low-stock badge |
| ProductGrid.ProductGrid.constructor | src/components/catalog/ProductGrid.tsx:26-108 | the seeded products and no favourites |
| ProductGrid.ProductGrid.ShownSpec | src/components/catalog/ProductGrid.tsx:111-116 | exactly the matching products are shown, in order; under "all" only the search decides |
| ProductGrid.ProductGrid.ToggleFavorite | src/components/catalog/ProductGrid.tsx:118-124 | flips that id's membership only; toggling again restores the set |
| Customization.ChangedSpec | src/components/catalog/CatalogCustomization.tsx:62-67 | a change sets its key and leaves every other key; a value of the setting's own kind keeps the settings well typed |
| Customization.PresetSpec | src/components/catalog/CatalogCustomization.tsx:50-56 | a preset sets the two colours and nothing else; the defaults are the first preset; the second swaps the first's colours |
| Customization.Slug | src/components/catalog/CatalogCustomization.tsx:499 | the store address has no whitespace and no upper-case letter |
| Customization.SlugIdempotent | src/components/catalog/CatalogCustomization.tsx:499 | taking the address of an address changes nothing |
| Customization.CatalogCustomization.constructor | src/components/catalog/CatalogCustomization.tsx:29-48 | the settings start at the defaults |
| Customization.CatalogCustomization.ConfigChange | src/components/catalog/CatalogCustomization.tsx:62-67 | the settings become the changed settings and stay well typed |
| Customization.CatalogCustomization.Reset | src/components/catalog/CatalogCustomization.tsx:74-96 | the settings return to the defaults |
| Customization.CatalogCustomization.ApplyPreset | src/components/catalog/CatalogCustomization.tsx:190-193 | the settings take the preset's colours and stay well typed |
| Sidebar.HomeActive | src/components/AppSidebar.tsx:103-107 | the home entry is highlighted iff the path is exactly the home path |
| Sidebar.OtherActive | src/components/AppSidebar.tsx:103-107 | any other entry is highlighted iff the path contains its query part; a URL without '?' tests for "undefined" |
| Sidebar.TabInactiveAtHome | src/components/AppSidebar.tsx:103-107 | on the bare home path no tab entry is highlighted |
| Sidebar.HomePathHighlightsHomeOnly | src/components/AppSidebar.tsx:28-107 | on the home path exactly the home entry of the menu is highlighted |
| Sidebar.GroupedSpec | src/components/AppSidebar.tsx:114-119 | the `reduce` gives one non-empty heading per distinct group, each listing exactly that group's entries in menu order, with no entry lost |
| Sidebar.AddNewGroup | src/components/AppSidebar.tsx:116-117 | an entry of an unseen group opens a new heading at the end |
| Sidebar.AddToGroup | src/components/AppSidebar.tsx:117-118 | an entry of a known group joins the end of its heading |
| Sidebar.GroupOrder | src/components/AppSidebar.tsx:114-124 | headings appear in the order their groups first occur in the menu |
| Sidebar.FirstIndex | src/components/AppSidebar.tsx:114-124 | the first occurrence lies inside the menu iff the group occurs |
| Text.Lower | src/components/store/ModernStorefront.tsx:163-164 | `toLowerCase` keeps the length and maps each character |
| Text.Split | src/components/AppSidebar.tsx:105 | `split` yields at least one piece and no piece holds the separator |
| Text.JoinSplit | src/components/AppSidebar.tsx:105 | joining the pieces of a split gives the string back |
| Text.SplitJoin | src/components/AppSidebar.tsx:105 | splitting separator-free pieces joined by the separator gives the pieces back |
| Text.RemoveWhitespace | src/components/catalog/CatalogCustomization.tsx:499 | exactly the whitespace is removed: every non-whitespace character occurs in the result as many times as in the input, no whitespace occurs, and the input's order is kept |
| Numbers.Div | src/components/financial/FinancialManager.tsx:54 | a quotient is finite iff both operands are and the divisor is non-zero |
| Numbers.NatToString | src/pages/Checkout.tsx:69 | `toString` of a natural number is a non-empty digit string |
| Numbers.DigitsValueOfNatToString | src/pages/Checkout.tsx:69 | the printed digits read back as the number |
| Numbers.ParseNatToString | src/components/products/ProductManager.tsx:72-73 | `parseInt` and `parseFloat` read a printed natural number back exactly |
| Numbers.ParseEmpty | src/components/financial/FinancialManager.tsx:51 | neither parser finds a number in the empty string |
| Numbers.Round | src/components/crm/CRMSystem.tsx:303 | `Math.round` lies within half of its argument, halves rounding up |
| Numbers.PadStart2 | src/pages/Checkout.tsx:69 | `padStart(2, '0')` yields at least two characters and leaves longer strings alone |

## Left out

- Rendering, icons, toasts, `navigate`, `console.log` and the clipboard write are left out. The model keeps only the state these handlers change.
- `alert` (ModernStorefront.tsx:251, POSSystem.tsx:113) only shows a message and is not modelled.
- `window.open` of the WhatsApp link (PublicCatalog.tsx:317, ModernStorefront.tsx:548) is not modelled; the link itself is (`PublicCatalog.WhatsAppLink`).
- `navigator.share` and its clipboard fallback (`shareProduct`, PublicCatalog.tsx:157-168, ModernStorefront.tsx:218-228) are not modelled.
- Money is exact: prices, totals and margins are `real`, so the rounding of JavaScript's binary floating point (e.g. 0.1 + 0.2) is not modelled.
- Sidebar.GroupOrder: holds for group names that are not integer-like and not keys of `Object.prototype`. `Object.entries` lists integer-like keys first in ascending order, and `!acc[group]` misreads names like "constructor"; the menu's own group names are of neither kind.
- Timers (`setTimeout`, `setInterval`) become event methods that the caller fires: `PixCodeReady`, `CopyFeedbackElapsed`, `ProcessingElapsed`, `SecondElapsed`, `ConfirmPayment`. Their timing and ordering against other clicks is not modelled.
- SubscriptionCheckout.PaymentPage.ConfirmPayment: a scheduled confirmation still fires after "Voltar" or after expiry. The model keeps that, but it does not model the redirect to the dashboard 3 s later.
- The PIX payload text and `Math.random` are left out. The code is a parameter of `PixCodeReady`.
- `formatPrice` (`Intl.NumberFormat`) and `encodeURIComponent` are function parameters of the WhatsApp functions. `toFixed` and `toLocaleString` are display formatting and are not modelled.
- `toLowerCase` maps only the ASCII letters A-Z. Accented capitals are not lower-cased.
- `parseFloat` and `parseInt` read an optional sign, digits and an optional fraction. Leading whitespace, exponents, "Infinity" and hexadecimal prefixes are not modelled.
- `Numbers.Number` does not tell NaN from ±Infinity.
- Dates are not modelled: a new customer's `registerDate` is the `today` parameter, and the CRM's active-customer count, which depends on the current date, is left out. The same goes for entry, sale and purchase dates.
- The product `image` (always `null` in the form), product ratings, tags, and the inventory and CRM notes and preferences are not modelled.
- PosRegister.Register.SetDiscount: takes the already converted `Number(value)` as a real. The text-to-number conversion of that field is not modelled.
- PosWizard: the sale-complete dialog's `onOpenChange` close is not modelled; `ResetSale` covers the button.
- SubscriptionCheckout.PlanFor: only the three plan ids find a plan. Prototype keys of the `plans` object (e.g. "toString") are not modelled.
- PosWizard.TotalSign: the total is not clamped at 0. The code subtracts the discount with no lower bound, and the model follows the code rather than a clamped total.
- ModernStorefront.Storefront.constructor: requires a catalogue whose products all have stock of at least 1, which holds for the storefront's own products. For a product with stock 0, the first add would create a line above its cap.
- Stock.IdText: prints integers in decimal only.
- The customer-details and purchase-history dialogs (`selectedCustomer` in CustomerManager and CRMSystem) only display data and are not modelled.
- FinancialManager's daily-cash, fixed-cost and expense lists are displayed constants and are not modelled.
- CatalogCustomization's save handler only shows a toast. Its share, price-list and link buttons have no logic beyond display.
- The sidebar's collapse state and `getNavCls` class names are not modelled.
