# Design patterns in Python, modelled in Dafny

This project models a teaching catalogue of object-oriented concepts and design patterns. It covers the structural, creational, behavioral and architectural patterns and the object-oriented concepts. Each Python source file of the catalogue's core becomes one Dafny module:

- the order and audio-player state machines;
- the expense-approval and security chains;
- the MVC task manager and the user and product repositories;
- the playlist and pagination iterators;
- the smartphone and user-account encapsulation examples;
- the online-store facade;
- the protection, caching and lazy-image proxies;
- the coffee and middleware decorators;
- the dependency-injection container;
- the file and org-chart composites;
- the payment and CSV adapters;
- the data-pipeline and beverage template methods;
- the discount and sorting strategies;
- the order and stock-market observers;
- the chat-room and smart-home mediators;
- the request, profile and pizza builders;
- the document and character prototypes;
- the payment and notification factories;
- the configuration and logger singletons;
- the classes-and-objects, SOLID, composition, inheritance, polymorphism and abstraction examples.

The models follow the shape of the source:
- The objects that own mutable state (builders, accounts, iterators, controllers, repositories, subscribers and the like) are Dafny classes. Their methods are specified by `modifies` and `old` contracts. The records kept inside them (the repository's users and products, the MVC tasks, composite items, money and messages) are datatype values, even where the Python code updates a record's fields in place; the "Left out" section names what that loses.
- Code that only computes is datatypes, functions and lemmas.
- A search or counting loop in the source is a method with a loop and its invariants.
- A Python exception is an error value of `Result`, and `None` is `Option`. Both are defined in `wrappers.dfy`.
- A Python dict keeps its insertion order. `dicts.dfy` models it as a map together with the order in which its keys were first inserted.
- `text.dfy` holds the few string operations the code relies on, restricted to ASCII.
- `seqs.dfy` holds list filtering, counting, removal and summing.

Money, prices and other Python floats are Dafny `real`s, so the arithmetic is exact. Times come from the clock in the source; here they are parameters.

## Model

| member | source | states |
|---|---|---|
| Abstraction.HealthCheckWith | src/oops_concepts/abstraction.py:51-57 | healthy with the answer to "SELECT 1" when `execute` answers, "❌ Database is down" when it raises |
| Abstraction.HealthyConnections | src/oops_concepts/abstraction.py:60-96 | each of the three concrete connections reports healthy with its own "SELECT 1" answer, never down |
| Abstraction.ExportIgnoresCase | src/oops_concepts/abstraction.py:149-150 | two formats equal up to upper-casing export identically, and exporting an upper-cased format is the same as the original |
| Abstraction.ExportedFormatIsUpper | src/oops_concepts/abstraction.py:149-150 | the export text ends with the upper-cased format, in which no lower-case letter remains |
| Abstraction.FormatMessage | src/oops_concepts/abstraction.py:195-213 | an SMS is the first 160 characters of the message; an email is the message in the fixed HTML envelope |
| Abstraction.SendNotification | src/oops_concepts/abstraction.py:165-177 | an invalid recipient gets the invalid-recipient reply; a valid one gets the channel's send result for the channel-formatted message |
| Abstraction.InvalidOnlyWhenEmpty | src/oops_concepts/abstraction.py:165-177 | the invalid-recipient reply comes if and only if the recipient is empty |
| Abstraction.SmsFitsLimit | src/oops_concepts/abstraction.py:203-205 | an SMS has at most 160 characters, is a prefix of the message, and is the whole message when that fits |
| Abstraction.EnvelopeHoldsMessage | src/oops_concepts/abstraction.py:195-196 | the email text is the fixed start, the unchanged message and the fixed end, with the lengths adding up |
| Adapter.Truncate | src/design_patterns/structural/adapter.py:108 | Python's `int()` on a float: the integer toward zero, within one of the value on the correct side |
| Adapter.TranslationsAgree | src/design_patterns/structural/adapter.py:107-158 | for any provider answer, the adapter reports success exactly when the provider's own success word is its status, and passes the id, amount and currency through |
| Adapter.StripeAdapterCharge | src/design_patterns/structural/adapter.py:107-116 | a Stripe charge succeeds with id "ch_stripe_123", provider "Stripe", and the caller's amount and currency |
| Adapter.PayPalAdapterCharge | src/design_patterns/structural/adapter.py:129-137 | a PayPal charge succeeds with id "PAY-paypal-456", provider "PayPal", and the caller's amount and currency |
| Adapter.RazorpayAdapterCharge | src/design_patterns/structural/adapter.py:149-158 | a Razorpay charge succeeds with id "order_razorpay_789", provider "Razorpay", and the caller's amount and currency |
| Adapter.StripeGetsCents | src/design_patterns/structural/adapter.py:108-109 | for a non-negative amount Stripe is sent the amount in cents rounded down: within one cent below `amount * 100` |
| Adapter.StatusMeansSuccess | src/design_patterns/structural/adapter.py:58-59 | the status each adapter's `get_status` reports is the status word its `charge` counts as success |
| Adapter.ZipKeys | src/design_patterns/structural/adapter.py:203 | `dict(zip(keys, values))` has exactly the keys that were paired with a value |
| Adapter.ZipLookup | src/design_patterns/structural/adapter.py:203 | the i-th key maps to the i-th value unless that key is repeated later among the paired keys |
| Adapter.GetData | src/design_patterns/structural/adapter.py:198-205 | one record per line after the header line of the stripped text |
| Adapter.RecordField | src/design_patterns/structural/adapter.py:198-205 | record j holds, under the i-th header, the i-th field of data line j, for every header paired with a field and not repeated later |
| Adapter.BlankCsvHasNoRecords | src/design_patterns/structural/adapter.py:198-205 | text that is empty after stripping gives no records |
| Adapter.FourLines | src/design_patterns/structural/adapter.py:198-205 | a four-line text gives the three records of its last three lines under the first line's headers |
| Adapter.ExportLines | src/design_patterns/structural/adapter.py:173-174 | demonstration, for the bundled legacy export only: it splits into the header line and the three data lines |
| Adapter.ExportIsJoin | src/design_patterns/structural/adapter.py:173-174 | demonstration, for the bundled legacy export only: it is its four lines joined by newlines |
| Adapter.LegacyExportRecords | src/design_patterns/structural/adapter.py:170-205 | adapting the legacy export gives the Alice, Bob and Charlie records keyed by name, age and city |
| Builder.HttpRequest.constructor | src/design_patterns/creational/builder.py:22-32 | a new request has the dataclass defaults: GET, empty url, no headers or parameters, no body, timeout 30, no retries, no token |
| Builder.HttpRequestBuilder.constructor | src/design_patterns/creational/builder.py:69-70 | the builder starts from a fresh default request |
| Builder.HttpRequestBuilder.SetMethod | src/design_patterns/creational/builder.py:72-75 | the method is stored upper-cased and nothing else changes |
| Builder.HttpRequestBuilder.SetUrl | src/design_patterns/creational/builder.py:77-80 | only the url changes |
| Builder.HttpRequestBuilder.AddHeader | src/design_patterns/creational/builder.py:82-85 | the header map gains or overwrites that key; nothing else changes |
| Builder.HttpRequestBuilder.AddQueryParam | src/design_patterns/creational/builder.py:87-90 | the query map gains or overwrites that key; nothing else changes |
| Builder.HttpRequestBuilder.SetBody | src/design_patterns/creational/builder.py:92-95 | only the body changes, to the given one |
| Builder.HttpRequestBuilder.SetTimeout | src/design_patterns/creational/builder.py:97-100 | only the timeout changes |
| Builder.HttpRequestBuilder.SetRetries | src/design_patterns/creational/builder.py:102-105 | only the retry count changes |
| Builder.HttpRequestBuilder.SetAuthToken | src/design_patterns/creational/builder.py:107-111 | the token is stored and the "Authorization" header becomes "Bearer " plus the token |
| Builder.HttpRequestBuilder.Build | src/design_patterns/creational/builder.py:113-117 | fails with the url-required error exactly when the url is empty, otherwise returns the held request object itself |
| Builder.DemoRequest | src/design_patterns/creational/builder.py:278-289 | the demonstration's chain yields a POST to the users url with both JSON headers, the bearer header, the body, timeout 10, 3 retries and the token |
| Builder.UserProfile.constructor | src/design_patterns/creational/builder.py:125-137 | a new profile holds the username and email with every optional field at its default |
| Builder.UserProfileBuilder.constructor | src/design_patterns/creational/builder.py:154-156 | the builder starts from a fresh profile with only the required username and email |
| Builder.UserProfileBuilder.SetName | src/design_patterns/creational/builder.py:158-161 | only the first and last names change |
| Builder.UserProfileBuilder.SetAge | src/design_patterns/creational/builder.py:163-165 | only the age changes, from none to the given value |
| Builder.UserProfileBuilder.SetPhone | src/design_patterns/creational/builder.py:167-169 | only the phone changes |
| Builder.UserProfileBuilder.SetAddress | src/design_patterns/creational/builder.py:171-173 | only the address changes |
| Builder.UserProfileBuilder.SetBio | src/design_patterns/creational/builder.py:175-177 | only the bio changes |
| Builder.UserProfileBuilder.SetPremium | src/design_patterns/creational/builder.py:179-181 | only the premium flag changes |
| Builder.UserProfileBuilder.AddPreference | src/design_patterns/creational/builder.py:183-185 | the preference map gains or overwrites that key; nothing else changes |
| Builder.UserProfileBuilder.Build | src/design_patterns/creational/builder.py:187-189 | returns the held profile object itself |
| Builder.DemoProfile | src/design_patterns/creational/builder.py:296-305 | the demonstration's chain yields alice_dev with name, age 28, the bio, premium, and the two preferences |
| Builder.Pizza.constructor | src/design_patterns/creational/builder.py:197-206 | a new pizza is medium, regular crust, tomato sauce, mozzarella, no toppings, no extra cheese, no notes |
| Builder.PizzaBuilder.constructor | src/design_patterns/creational/builder.py:228-229 | the builder starts from a fresh default pizza |
| Builder.PizzaBuilder.SetSize | src/design_patterns/creational/builder.py:231-233 | only the size changes |
| Builder.PizzaBuilder.SetCrust | src/design_patterns/creational/builder.py:235-237 | only the crust changes |
| Builder.PizzaBuilder.SetSauce | src/design_patterns/creational/builder.py:239-241 | only the sauce changes |
| Builder.PizzaBuilder.SetCheese | src/design_patterns/creational/builder.py:243-245 | only the cheese changes |
| Builder.PizzaBuilder.AddTopping | src/design_patterns/creational/builder.py:247-249 | the topping is appended at the end, duplicates kept; nothing else changes |
| Builder.PizzaBuilder.ExtraCheese | src/design_patterns/creational/builder.py:251-253 | only the extra-cheese flag changes, to true |
| Builder.PizzaBuilder.AddInstructions | src/design_patterns/creational/builder.py:255-257 | only the special instructions change |
| Builder.PizzaBuilder.Build | src/design_patterns/creational/builder.py:259-260 | returns the held pizza object itself |
| Builder.DemoPizza | src/design_patterns/creational/builder.py:312-323 | the demonstration's chain yields a large thin-crust bbq pizza with chicken, onions and peppers in that order, extra cheese and the slicing note |
| ChainOfResponsibility.ExpenseRequest.constructor | src/design_patterns/behavioral/chain_of_responsibility.py:31-38 | a new expense request is pending with no approver |
| ChainOfResponsibility.ApprovingIndex | src/design_patterns/behavioral/chain_of_responsibility.py:60-69 | names the first approver whose limit covers the amount, every earlier one unable to approve; none exactly when no approver can |
| ChainOfResponsibility.HandleExpense | src/design_patterns/behavioral/chain_of_responsibility.py:60-145 | the request ends approved by the title of that first able approver, or rejected with the approver left as it was when nobody can |
| ChainOfResponsibility.ManagementChainRouting | src/design_patterns/behavioral/chain_of_responsibility.py:84-145 | in Team Lead → Manager → Director → CEO each amount goes to the lowest level whose limit (1000, 10000, 50000) covers it, else the CEO |
| ChainOfResponsibility.ChainEndingWithCeoNeverRejects | src/design_patterns/behavioral/chain_of_responsibility.py:132-136 | any chain whose last approver is the CEO approves every amount |
| ChainOfResponsibility.AuthRequest.constructor | src/design_patterns/behavioral/chain_of_responsibility.py:153-164 | a new login request holds its four fields and an empty error list |
| ChainOfResponsibility.RequestCounts.constructor | src/design_patterns/behavioral/chain_of_responsibility.py:206 | the shared attempt table starts empty |
| ChainOfResponsibility.RunCheck | src/design_patterns/behavioral/chain_of_responsibility.py:189-246 | one check passes exactly when it adds no error, adds at most one, and touches no other user's attempt count |
| ChainOfResponsibility.RunChain | src/design_patterns/behavioral/chain_of_responsibility.py:177-182 | the chain passes exactly when no error was recorded, records at most one (it stops at the first failure), and touches no other user's count |
| ChainOfResponsibility.NoRateLimitKeepsCounts | src/design_patterns/behavioral/chain_of_responsibility.py:177-246 | a chain without the rate-limit check leaves the attempt table unchanged |
| ChainOfResponsibility.PassingMeansEveryCheckHeld | src/design_patterns/behavioral/chain_of_responsibility.py:177-246 | a request that passes satisfied every check in the chain: address not blacklisted, valid credentials, not a bot, at most 5 attempts |
| ChainOfResponsibility.RateLimitCountsOneAttempt | src/design_patterns/behavioral/chain_of_responsibility.py:208-216 | the rate-limit check adds one attempt for the user and passes exactly when the new count is at most 5 |
| ChainOfResponsibility.LoginChainRejectsEarly | src/design_patterns/behavioral/chain_of_responsibility.py:288-293 | in the demonstration's chain a blacklisted address or a bot is refused before its attempt is counted |
| ChainOfResponsibility.LoginChainDecision | src/design_patterns/behavioral/chain_of_responsibility.py:288-293 | from a clean address and a human agent the attempt is counted, and the login passes exactly when within the limit and with the right password |
| ChainOfResponsibility.Check | src/design_patterns/behavioral/chain_of_responsibility.py:184-246 | running one check on the request object appends that check's errors and installs its new attempt table |
| ChainOfResponsibility.HandleAuth | src/design_patterns/behavioral/chain_of_responsibility.py:177-182 | walking the handler objects gives the chain's verdict, its errors appended to the request, and its attempt table |
| ClassesAndObjects.Dog.constructor | src/oops_concepts/classes_and_objects.py:34-42 | a new dog holds the given name, breed and age |
| ClassesAndObjects.Dog.Birthday | src/oops_concepts/classes_and_objects.py:52-55 | the age goes up by exactly one and the message announces the new age |
| ClassesAndObjects.AccountCounter.constructor | src/oops_concepts/classes_and_objects.py:85 | the class-wide account count starts at zero |
| ClassesAndObjects.BankAccount.constructor | src/oops_concepts/classes_and_objects.py:87-95 | opening an account bumps the shared count by one and takes the new count as the account number, with no transactions |
| ClassesAndObjects.BankAccount.Deposit | src/oops_concepts/classes_and_objects.py:97-102 | a non-positive amount is refused and changes nothing; otherwise the balance rises by the amount and one credit is recorded |
| ClassesAndObjects.BankAccount.Withdraw | src/oops_concepts/classes_and_objects.py:104-109 | an amount above the balance is refused and changes nothing; otherwise the balance falls by the amount, one debit is recorded, and the balance stays non-negative |
| ClassesAndObjects.DemoAccounts | src/oops_concepts/classes_and_objects.py:270-277 | the demonstration's accounts get numbers 1 and 2; Alice ends at 1150 after a credit of 200 and a debit of 50, and Bob is untouched at 500 |
| ClassesAndObjects.OverdraftRefused | src/oops_concepts/classes_and_objects.py:104-106 | withdrawing more than a 100 balance is refused, reports the balance, and records nothing |
| ClassesAndObjects.FromString | src/oops_concepts/classes_and_objects.py:159-163 | succeeds exactly when the text has three comma-separated fields and the salary parses; any other field count is the unpacking error; name and role come out stripped |
| ClassesAndObjects.Intern | src/oops_concepts/classes_and_objects.py:165-168 | every intern has the given name, the role "Intern" and the salary 30000 |
| ClassesAndObjects.FromStringJoin | src/oops_concepts/classes_and_objects.py:159-163 | three comma-free fields joined by commas read back as those fields, stripped, with the parsed salary |
| ClassesAndObjects.FromStringNoComma | src/oops_concepts/classes_and_objects.py:162 | text without a comma is a single field and is rejected |
| ClassesAndObjects.LessIgnoresName | src/oops_concepts/classes_and_objects.py:202-208 | `<` compares prices only, so items with equal prices are unordered, while `==` tells them apart by name |
| ClassesAndObjects.ShoppingCart.constructor | src/oops_concepts/classes_and_objects.py:217-218 | a new cart is empty |
| ClassesAndObjects.ShoppingCart.Add | src/oops_concepts/classes_and_objects.py:220-221 | the item is appended at the end |
| ClassesAndObjects.ShoppingCart.Length | src/oops_concepts/classes_and_objects.py:223-224 | `len(cart)` is the number of items |
| ClassesAndObjects.ShoppingCart.Contains | src/oops_concepts/classes_and_objects.py:226-227 | `in` is true exactly when some item has the same name and price, as `__eq__` compares |
| ClassesAndObjects.DemoCart | src/oops_concepts/classes_and_objects.py:294-309 | the demonstration's cart holds three items and finds the apple |
| Composite.SizeAllAppend | src/design_patterns/structural/composite.py:68-78 | adding an item to a folder grows the folder's size by exactly that item's size |
| Composite.SizeAllRemove | src/design_patterns/structural/composite.py:72-78 | removing the first occurrence of a present item shrinks the folder's size by exactly that item's size |
| Composite.SizeIsSumOfFiles | src/design_patterns/structural/composite.py:53-78 | an item's size is the sum of the sizes of every file anywhere beneath it |
| Composite.DisplayIsPreorder | src/design_patterns/structural/composite.py:56-85 | the folder display is one line per node in pre-order, each indented two spaces per level, joined by newlines |
| Composite.FolderNode.constructor | src/design_patterns/structural/composite.py:64-66 | a new folder has its name, no children, and size 0 |
| Composite.FolderNode.Add | src/design_patterns/structural/composite.py:68-70 | the item is appended and the size grows by the item's size |
| Composite.FolderNode.Remove | src/design_patterns/structural/composite.py:72-74 | a present item's first occurrence goes and the size shrinks by its size; an absent item is the ValueError and changes nothing |
| Composite.FolderNode.GetSize | src/design_patterns/structural/composite.py:76-78 | the folder's size is the total of its children's sizes |
| Composite.Headcount | src/design_patterns/structural/composite.py:142-150 | every subtree counts at least its own root |
| Composite.HeadcountAllAppend | src/design_patterns/structural/composite.py:128-150 | a new report adds the headcount of their whole subtree |
| Composite.TotalSalaryAllAppend | src/design_patterns/structural/composite.py:128-133 | a new report adds the salaries of their whole subtree |
| Composite.RoundHalfEven | src/design_patterns/structural/composite.py:118 | the `.0f` display shows the salary rounded to a nearest whole dollar, a tie going to the even one |
| Composite.GetTeamSize | src/design_patterns/structural/composite.py:142-150 | the counting loop over the reports, recursing into managers, gives the subtree's headcount |
| Composite.ShowIsPreorder | src/design_patterns/structural/composite.py:116-140 | the org chart shows each person once, in pre-order, indented two spaces per level, joined by newlines |
| Composite.ManagerNode.constructor | src/design_patterns/structural/composite.py:124-126 | a new manager has the given name, title and salary and no reports |
| Composite.ManagerNode.AddReport | src/design_patterns/structural/composite.py:128-129 | the report is appended, and the team's headcount and total salary grow by the report's whole subtree |
| Composition.Names | src/oops_concepts/composition.py:111 | one name per ability, the i-th being the i-th ability's `get_name` |
| Composition.Robot.constructor | src/oops_concepts/composition.py:98-100 | a new robot has its name and no abilities |
| Composition.Robot.AddAbility | src/oops_concepts/composition.py:102-103 | the ability is appended at the end |
| Composition.Robot.RemoveAbility | src/oops_concepts/composition.py:105-106 | every ability with that name goes and the rest keep their order; removing an absent name changes nothing |
| Composition.ShowTextEmpty | src/oops_concepts/composition.py:108-112 | the "has no abilities" text appears exactly when the robot has none |
| Composition.ShowTextAfterAdd | src/oops_concepts/composition.py:108-112 | adding an ability to a non-empty robot appends ", " and its name to the text |
| Composition.ShowTextSingle | src/oops_concepts/composition.py:108-112 | one ability is shown by its name alone after "can: " |
| Composition.PerformLinesInOrder | src/oops_concepts/composition.py:114-115 | `perform_all` gives one indented line per ability, its `perform` text (the function `Composition.Move`), in the abilities' order |
| Composition.PerformLinesAfterAdd | src/oops_concepts/composition.py:102-115 | adding an ability adds its line at the end and keeps the earlier lines |
| Composition.ShowTextThree | src/oops_concepts/composition.py:108-112 | three abilities are shown by their names in order, separated by ", " |
| Composition.RemoveSwim | src/oops_concepts/composition.py:311 | removing Swim from Walk, Swim, Climb leaves Walk, Climb |
| Composition.DemoRobot | src/oops_concepts/composition.py:300-313 | the explorer has Walk, Swim, Climb, then Walk, Climb, Fly after the upgrade |
| Composition.Computer.constructor | src/oops_concepts/composition.py:184-190 | a new computer holds the given name, CPU, RAM, storage and optional GPU |
| Composition.Computer.SpecLines | src/oops_concepts/composition.py:192-201 | the spec has four lines, and a fifth exactly when there is a GPU |
| Composition.Computer.RunTask | src/oops_concepts/composition.py:203-210 | the header line and the CPU line, plus the GPU line third exactly when there is a GPU and the task mentions "render" in any case |
| Composition.Computer.UpgradeRam | src/oops_concepts/composition.py:212-215 | only the RAM is replaced, and the message names the old and the new RAM |
| Composition.Computer.UpgradeStorage | src/oops_concepts/composition.py:217-220 | only the storage is replaced, and the message names the old and the new storage |
| Composition.SpecsLineCount | src/oops_concepts/composition.py:192-201 | when no part's text holds a line break, the joined spec text splits into one line per present part |
| Composition.RendersTaskIgnoresCase | src/oops_concepts/composition.py:208 | upper-casing the task does not change whether the GPU renders it |
| Composition.Format | src/oops_concepts/composition.py:234-246 | the plain formatter passes the message through unchanged |
| Composition.FormatKeepsMessage | src/oops_concepts/composition.py:234-246 | every formatter's output contains the whole message |
| Composition.SendIgnoresTail | src/oops_concepts/composition.py:255-262 | content past the first 50 characters never reaches the sent text |
| Composition.NotifyPlain | src/oops_concepts/composition.py:276-282 | with the plain formatter, notifying is sending the message unchanged |
| Decorator.Cost | src/design_patterns/structural/decorator.py:41-89 | a decorated coffee never costs less than the basic 2.00 |
| Decorator.WrapAddOns | src/design_patterns/structural/decorator.py:45-89 | every coffee is a sequence of add-ons around the basic one, and wrapping that sequence gives it back |
| Decorator.AddOnsWrap | src/design_patterns/structural/decorator.py:45-89 | wrapping a sequence of add-ons and reading the add-ons back gives the same sequence |
| Decorator.DescriptionOfWrap | src/design_patterns/structural/decorator.py:38-86 | the description is "Basic Coffee" followed by one " + name" per add-on, innermost first |
| Decorator.CostByCounts | src/design_patterns/structural/decorator.py:41-89 | the cost is 2.00 plus 0.50 per milk, 0.25 per sugar, 0.75 per whipped cream and 0.60 per caramel |
| Decorator.CostIgnoresOrder | src/design_patterns/structural/decorator.py:41-89 | the same add-ons wrapped in any order cost the same |
| Decorator.EverythingCoffee | src/design_patterns/structural/decorator.py:219-225 | the demonstration's fully loaded coffee costs 4.10 and lists its four add-ons in order |
| Decorator.WrapFour | src/design_patterns/structural/decorator.py:219-223 | wrapping four add-ons is decorating the basic coffee with them one after another |
| Decorator.Handle | src/design_patterns/structural/decorator.py:126-194 | handling a request keeps the layering of the middleware stack, only its state changes |
| Decorator.SameLayersReflexive | src/design_patterns/structural/decorator.py:130-134 | a middleware stack has the same layering as itself |
| Decorator.LoggingRecordsOnce | src/design_patterns/structural/decorator.py:150-154 | the logging layer records exactly one entry for the path and always answers with the inner handler's response |
| Decorator.AuthGate | src/design_patterns/structural/decorator.py:165-171 | the auth layer answers 401 without delegating exactly when the token is missing or empty, and otherwise answers as the inner handler |
| Decorator.HandledStatus | src/design_patterns/structural/decorator.py:126-194 | every status is 200, 401 or 429, and a request with a token is never answered 401 |
| Decorator.RateLimitCounts | src/design_patterns/structural/decorator.py:188-194 | the rate limiter counts every request, answers 429 without delegating above the maximum, and delegates otherwise |
| Decorator.DemoPipelineServes | src/design_patterns/structural/decorator.py:239-248 | in the demonstration's stack a request under the limit with a token gets 200 from the basic handler and is logged once |
| Decorator.DemoPipelineRefusesAnonymous | src/design_patterns/structural/decorator.py:239-254 | in the demonstration's stack a request under the limit without a token gets 401, is counted and is not logged |
| DependencyInjection.MockSender.constructor | src/design_patterns/architectural/dependency_injection.py:55-56 | a new mock sender has recorded nothing |
| DependencyInjection.MockSender.Send | src/design_patterns/architectural/dependency_injection.py:58-64 | the message is recorded at the end of the sent list and the reply is the mock's "would send" text |
| DependencyInjection.Welcome | src/design_patterns/architectural/dependency_injection.py:89-94 | the welcome message goes to the user's email under the subject "Welcome!" |
| DependencyInjection.PasswordReset | src/design_patterns/architectural/dependency_injection.py:96-101 | the reset message goes to the user's email under the subject "Password Reset" |
| DependencyInjection.OrderConfirmation | src/design_patterns/architectural/dependency_injection.py:103-108 | the confirmation goes to the user's email |
| DependencyInjection.NotificationService.constructor | src/design_patterns/architectural/dependency_injection.py:85-87 | the service keeps the injected sender |
| DependencyInjection.NotificationService.Deliver | src/design_patterns/architectural/dependency_injection.py:85-108 | the reply is the injected sender's reply to the message, and a mock sender records exactly that message |
| DependencyInjection.NotificationService.SendWelcome | src/design_patterns/architectural/dependency_injection.py:89-94 | the injected sender gets the welcome message; a mock records it |
| DependencyInjection.NotificationService.SendPasswordReset | src/design_patterns/architectural/dependency_injection.py:96-101 | the injected sender gets the reset message; a mock records it |
| DependencyInjection.NotificationService.SendOrderConfirmation | src/design_patterns/architectural/dependency_injection.py:103-108 | the injected sender gets the confirmation; a mock records it |
| DependencyInjection.InsertSorted | src/design_patterns/architectural/dependency_injection.py:146-148 | inserting a name gives exactly the old names plus that one |
| DependencyInjection.InsertSortedKeepsSorted | src/design_patterns/architectural/dependency_injection.py:146-148 | inserting into a strictly sorted list keeps it strictly sorted |
| DependencyInjection.ServiceContainer.constructor | src/design_patterns/architectural/dependency_injection.py:126-128 | a new container has no instances and no factories |
| DependencyInjection.ServiceContainer.RegisterSingleton | src/design_patterns/architectural/dependency_injection.py:130-132 | the name maps to the instance, replacing any earlier one; the factories are untouched |
| DependencyInjection.ServiceContainer.RegisterFactory | src/design_patterns/architectural/dependency_injection.py:134-136 | the name maps to the factory, replacing any earlier one; the instances are untouched |
| DependencyInjection.ServiceContainer.Resolve | src/design_patterns/architectural/dependency_injection.py:138-144 | a shared instance wins over a factory of the same name; a factory is called; the not-registered error comes exactly for an unknown name |
| DependencyInjection.ServiceContainer.ListServices | src/design_patterns/architectural/dependency_injection.py:146-148 | the names are strictly sorted and are exactly those registered as instances or factories |
| DependencyInjection.SortedHasNoDuplicates | src/design_patterns/architectural/dependency_injection.py:147-148 | the listed names hold no duplicates, so a name registered both ways is listed once |
| DependencyInjection.CannedRecord | src/design_patterns/architectural/dependency_injection.py:172-181 | the PostgreSQL and SQLite stand-ins answer any lookup with a row holding the requested id |
| DependencyInjection.InMemoryDatabase.constructor | src/design_patterns/architectural/dependency_injection.py:187-188 | a new in-memory database has no tables |
| DependencyInjection.InMemoryDatabase.Save | src/design_patterns/architectural/dependency_injection.py:190-194 | the record is appended to its table, created when missing, and the other tables are untouched |
| DependencyInjection.InMemoryDatabase.Find | src/design_patterns/architectural/dependency_injection.py:196-201 | the loop returns the first record of the table whose id matches, or none |
| DependencyInjection.UserService.constructor | src/design_patterns/architectural/dependency_injection.py:210-212 | the service keeps the injected database and notifier |
| DependencyInjection.UserService.CreateUser | src/design_patterns/architectural/dependency_injection.py:214-217 | an in-memory database gains the new user's record in "users", and a mock sender records the welcome message |
| DependencyInjection.UserService.FindUser | src/design_patterns/architectural/dependency_injection.py:219-220 | the lookup is delegated to the injected database: a canned row from the stand-ins, the first match from the in-memory store |
| DependencyInjection.NewUser | src/design_patterns/architectural/dependency_injection.py:215 | the record `create_user` saves holds no "id" entry |
| DependencyInjection.CreatedUsersNotFoundById | src/design_patterns/architectural/dependency_injection.py:196-220 | records saved by `create_user` carry no id, so an in-memory lookup by id never returns them |
| Encapsulation.Drain | src/oops_concepts/encapsulation.py:76-78 | draining never leaves the battery below zero and never raises a non-negative level; the level is either zero or the old level less the amount |
| Encapsulation.ChargeLevel | src/oops_concepts/encapsulation.py:59-62 | charging caps the level at 100; otherwise the level rises by exactly the amount, and a non-negative charge never lowers it |
| Encapsulation.PhoneStep | src/oops_concepts/encapsulation.py:44-62 | an install below 5% battery changes nothing, otherwise it appends the app and drains 2; using a missing app changes nothing, using an installed one drains 5; charging keeps the apps |
| Encapsulation.PhoneStepKeepsBattery | src/oops_concepts/encapsulation.py:44-78 | every operation keeps the battery between 0 and 100 as long as a charge amount is not negative |
| Encapsulation.NegativeChargeEmptiesBelowZero | src/oops_concepts/encapsulation.py:59-62 | a negative charge amount is not refused and takes a 10% battery to -10 |
| Encapsulation.PhoneRunKeepsBattery | src/oops_concepts/encapsulation.py:44-78 | any run of installs, uses and non-negative charges keeps the battery between 0 and 100 |
| Encapsulation.PhoneRunKeepsApps | src/oops_concepts/encapsulation.py:44-57 | no operation uninstalls: an installed app stays installed through any run |
| Encapsulation.UnlockReply | src/oops_concepts/encapsulation.py:64-84 | the phone unlocks exactly for the factory PIN "1234" |
| Encapsulation.SmartPhone.constructor | src/oops_concepts/encapsulation.py:35-40 | a new phone has the given brand and model, a full battery and no apps |
| Encapsulation.SmartPhone.Perform | src/oops_concepts/encapsulation.py:44-62 | the phone's battery and apps move as the transition function says, and the reply is the transition's reply |
| Encapsulation.SmartPhone.InstallApp | src/oops_concepts/encapsulation.py:44-50 | installing updates the phone's state as the install transition says |
| Encapsulation.SmartPhone.UseApp | src/oops_concepts/encapsulation.py:52-57 | using an app updates the phone's state as the use transition says |
| Encapsulation.SmartPhone.Charge | src/oops_concepts/encapsulation.py:59-62 | charging updates the phone's state as the charge transition says |
| Encapsulation.SmartPhone.Unlock | src/oops_concepts/encapsulation.py:64-68 | the reply is the unlock reply for the PIN and nothing changes |
| Encapsulation.SmartPhone.GetBatteryLevel | src/oops_concepts/encapsulation.py:70-72 | reports the current battery level without changing it |
| Encapsulation.LoginStep | src/oops_concepts/encapsulation.py:169-183 | a login succeeds exactly when the account is unlocked and the password matches; a locked account is left as it is; success resets the counter; a failure adds one attempt and locks exactly at the fifth |
| Encapsulation.LoginKeepsValid | src/oops_concepts/encapsulation.py:169-183 | every login keeps the counter within 0..5 and the lock set exactly when the counter has reached 5 |
| Encapsulation.LockedStaysLocked | src/oops_concepts/encapsulation.py:171-172 | once locked, no sequence of login attempts, right or wrong, changes the account |
| Encapsulation.WrongPasswordsLock | src/oops_concepts/encapsulation.py:178-182 | from an unlocked state, as many wrong passwords as attempts remain lock the account at 5 attempts |
| Encapsulation.FreshAccountLocksOnFifth | src/oops_concepts/encapsulation.py:149-182 | a new account survives four wrong passwords and is locked by the fifth |
| Encapsulation.ChangePasswordStep | src/oops_concepts/encapsulation.py:185-192 | the password changes exactly when the old password matches and the new one has at least 8 characters; otherwise the stored one is kept |
| Encapsulation.ChangeThenLogin | src/oops_concepts/encapsulation.py:169-192 | after a successful change the new password logs in and the previous one is refused |
| Encapsulation.UserAccount.constructor | src/oops_concepts/encapsulation.py:151-157 | a new account stores the name, the validated email and the password, with no failed attempts and no lock |
| Encapsulation.UserAccount.SetEmail | src/oops_concepts/encapsulation.py:163-167 | the setter accepts exactly an email with "@" and "."; a refused value raises its error and keeps the old email; nothing else changes |
| Encapsulation.UserAccount.Login | src/oops_concepts/encapsulation.py:169-183 | the counter and lock move as the login transition says, the reply is its reply, and the email and password stay |
| Encapsulation.UserAccount.ChangePassword | src/oops_concepts/encapsulation.py:185-192 | the password moves as the change transition says; the email and the lockout state stay |
| Encapsulation.Open | src/oops_concepts/encapsulation.py:151-167 | creating an account fails with the setter's error exactly for an invalid email; otherwise the new account is unlocked with no attempts |
| Facade.Available | src/design_patterns/structural/facade.py:34-44 | an unknown product has zero stock; a known one has its stored count |
| Facade.Reserve | src/design_patterns/structural/facade.py:37-41 | a reservation is refused exactly when the stock check fails; it raises KeyError exactly for an unknown product with a quantity of zero or less; otherwise only that product's count drops by the quantity and the set of products stays |
| Facade.ReserveKeepsStockNonNegative | src/design_patterns/structural/facade.py:33-41 | reserving a positive quantity never takes any product below zero |
| Facade.InventoryService.constructor | src/design_patterns/structural/facade.py:26-31 | a new inventory holds 10 laptops, 25 phones and 50 headphones |
| Facade.InventoryService.CheckStock | src/design_patterns/structural/facade.py:33-35 | the check passes exactly when the available count covers the quantity (the predicate `Facade.CheckStock`) |
| Facade.InventoryService.ReserveStock | src/design_patterns/structural/facade.py:37-41 | a reservation answers true and stores the decremented table, a refusal answers false, the unknown product raises its key; the last two leave the table as it was |
| Facade.InventoryService.GetStock | src/design_patterns/structural/facade.py:43-44 | reports the available count, zero for an unknown product |
| Facade.ValidateCard | src/design_patterns/structural/facade.py:50-52 | an accepted card number has at least sixteen characters, and nothing but spaces is removed before counting |
| Facade.CardCountsNonSpaces | src/design_patterns/structural/facade.py:50-52 | a card number is accepted exactly when it holds sixteen characters other than spaces |
| Facade.CardSpacesIgnored | src/design_patterns/structural/facade.py:50-52 | inserting a space anywhere never changes whether a card is accepted |
| Facade.DemoCards | src/design_patterns/structural/facade.py:225-238 | the grouped number "4111 1111 1111 1111" is accepted and "1234" is refused |
| Facade.Charge | src/design_patterns/structural/facade.py:54-61 | a charge succeeds exactly for a valid card and carries the amount; otherwise it fails with "Invalid card number" |
| Facade.ShippingCost | src/design_patterns/structural/facade.py:70-74 | shipping is 5.99 plus 2.50 per kilogram, so never below 5.99 for a non-negative weight |
| Facade.CheckTransaction | src/design_patterns/structural/facade.py:97-99 | a transaction passes exactly when it is at most 10 000 |
| Facade.OrderIdInjective | src/design_patterns/structural/facade.py:157 | different order numbers give different "ORD-" ids, also past four digits |
| Facade.OrderTotal | src/design_patterns/structural/facade.py:158-170 | the total of an order is 101.24 per unit plus the 5.99 shipping base |
| Facade.FraudLimitInUnits | src/design_patterns/structural/facade.py:158-175 | at the fixed unit price the fraud check lets an order through exactly when it has at most 98 units |
| Facade.PlaceOrderStep | src/design_patterns/structural/facade.py:145-202 | an order succeeds exactly when stock, fraud and card checks all pass for a known product, and only then is the product's stock decremented; the unknown-product reservation raises KeyError; every outcome carries the order id of its number |
| Facade.FailFastOrder | src/design_patterns/structural/facade.py:162-181 | the first failing check, in the order stock, fraud, payment, decides the failure message |
| Facade.DemoLaptopOrder | src/design_patterns/structural/facade.py:219-228 | the demonstration's laptop order succeeds and leaves nine laptops |
| Facade.OnlineStoreFacade.constructor | src/design_patterns/structural/facade.py:137-143 | a new facade has a fresh inventory with the initial stock and a zero order counter |
| Facade.OnlineStoreFacade.PlaceOrder | src/design_patterns/structural/facade.py:145-202 | every call advances the counter by one, and the result and the new stock are those of the order step with the new number |
| Facade.OrderIdsDistinct | src/design_patterns/structural/facade.py:156-157 | two calls on one facade, having different numbers, never share an order id |
| Factory.ProcessPayment | src/design_patterns/creational/factory.py:56-116 | every built-in processor reports success with its own fixed "-TXN-001" transaction id |
| Factory.Refund | src/design_patterns/creational/factory.py:64-123 | every refund succeeds and carries back the transaction id it was given |
| Factory.PaymentFactory.constructor | src/design_patterns/creational/factory.py:136-141 | the factory starts with the four built-in processors, one for every payment method |
| Factory.PaymentFactory.Create | src/design_patterns/creational/factory.py:143-149 | creation succeeds exactly for a registered method and gives its processor; otherwise it raises "Unsupported payment method: …"; with every method registered it never fails |
| Factory.PaymentFactory.Register | src/design_patterns/creational/factory.py:151-154 | the method is mapped to the new processor, the others keep theirs, and a table covering every method still does |
| Factory.DefaultTableTotal | src/design_patterns/creational/factory.py:136-141 | the built-in table has a processor for every payment method |
| Factory.DefaultProcessorFor | src/design_patterns/creational/factory.py:136-141 | each payment method maps to its own built-in processor |
| Factory.CreditCardDemoMessage | src/design_patterns/creational/factory.py:56-62 | a credit card charge of 99.99 in the default currency reads "Credit card charged USD 99.99" |
| Factory.CreateNotifier | src/design_patterns/creational/factory.py:208-214 | a channel is looked up in lower case; it succeeds exactly for the four known channels and otherwise raises an error naming the channel as given |
| Factory.CreateNotifierCaseInsensitive | src/design_patterns/creational/factory.py:211 | channels that differ only in letter case give the same notifier, or both fail |
| Factory.CreateNotifierUpperCase | src/design_patterns/creational/factory.py:201-214 | an upper-case spelling of a known channel is accepted |
| Inheritance.Fly | src/oops_concepts/inheritance.py:90-93 | a bird gives the flying message exactly when it can fly, and the swimming message exactly when it cannot |
| Inheritance.PayByPosition | src/oops_concepts/inheritance.py:187-249 | a plain employee earns the base salary, a developer 2000 more per technology, a senior developer 3000 per mentee on top of the developer's pay |
| Inheritance.SkillRaisesPay | src/oops_concepts/inheritance.py:206-209 | one more technology raises a developer's pay by exactly 2000 |
| Inheritance.PayAtLeastBase | src/oops_concepts/inheritance.py:187-249 | with no negative mentee count, nobody outside management earns less than the base salary |
| Inheritance.ManagerRoleInjective | src/oops_concepts/inheritance.py:233-234 | different team sizes give different manager role texts |
| Inheritance.Manager.constructor | src/oops_concepts/inheritance.py:221-223 | a new manager has the given name, id and base salary and an empty team |
| Inheritance.Manager.AddToTeam | src/oops_concepts/inheritance.py:225-234 | the employee joins at the end of the team, the pay rises by exactly 5000 and the role names the new team size |
| Inheritance.ManagerPayByTeam | src/oops_concepts/inheritance.py:228-234 | a manager earns the base salary plus 5000 per team member, and the role names the team size |
| Inheritance.DemoEmployees | src/oops_concepts/inheritance.py:312-320 | the demonstration pays 106 000 to the developer, 147 000 to the senior developer and 130 000 to the manager of two |
| Polymorphism.ScalePerimeter | src/oops_concepts/polymorphism.py:72-91 | scaling every side by a factor scales the perimeter of a rectangle or a triangle by the same factor |
| Polymorphism.ScaleRectangleArea | src/oops_concepts/polymorphism.py:69-70 | scaling the sides scales a rectangle's area by the square of the factor |
| Polymorphism.RectangleAreaBound | src/oops_concepts/polymorphism.py:69-73 | no rectangle has a larger area than the square with the same perimeter, and a square reaches the bound |
| Polymorphism.Add | src/oops_concepts/polymorphism.py:169-172 | adding succeeds exactly for equal currencies, giving the summed amount in that currency; mixed currencies raise "Cannot add X and Y" |
| Polymorphism.Sub | src/oops_concepts/polymorphism.py:174-177 | subtracting succeeds exactly for equal currencies, giving the difference; mixed currencies raise "Cannot subtract X and Y" |
| Polymorphism.Mul | src/oops_concepts/polymorphism.py:179-180 | scaling keeps the currency |
| Polymorphism.EqIsEquality | src/oops_concepts/polymorphism.py:182-185 | two money values compare equal exactly when they are the same value |
| Polymorphism.OrderIgnoresCurrency | src/oops_concepts/polymorphism.py:187-191 | "<" and ">" look at the amounts only, ">" is "<" reversed, and different currencies are never equal |
| Polymorphism.AddThenSub | src/oops_concepts/polymorphism.py:169-177 | subtracting what was added gives back the original money |
| Polymorphism.AddCommutes | src/oops_concepts/polymorphism.py:169-172 | addition in one currency gives the same result in either order |
| Polymorphism.MulDistributesOverAdd | src/oops_concepts/polymorphism.py:169-180 | scaling a sum gives the sum of the scaled values |
| Polymorphism.MixedCurrenciesFail | src/oops_concepts/polymorphism.py:169-177 | mixed currencies are refused by both operators whatever the amounts |
| Polymorphism.DemoMoney | src/oops_concepts/polymorphism.py:286-294 | in the demonstration 29.99 + 5.40 is 35.39 dollars, doubled 70.78; the price is greater than the tax and equal to another 29.99 |
| IteratorPattern.SongDurationReadsBack | src/design_patterns/behavioral/iterator.py:32-35 | a song's text shows minutes, a colon and exactly two digits of seconds, which read back as the duration |
| IteratorPattern.Playlist.constructor | src/design_patterns/behavioral/iterator.py:47-49 | a new playlist has its name and no songs |
| IteratorPattern.Playlist.AddSong | src/design_patterns/behavioral/iterator.py:51-52 | the song is appended at the end |
| IteratorPattern.Playlist.Length | src/design_patterns/behavioral/iterator.py:54-55 | the length is the number of songs |
| IteratorPattern.Playlist.Iterator | src/design_patterns/behavioral/iterator.py:57-59 | a new forward iterator over this playlist's own list, at the first song |
| IteratorPattern.Playlist.ReverseIterator | src/design_patterns/behavioral/iterator.py:61-63 | a new reverse iterator over this playlist, at the last song |
| IteratorPattern.PlaylistIterator.constructor | src/design_patterns/behavioral/iterator.py:73-75 | the iterator starts at the first song |
| IteratorPattern.PlaylistIterator.Next | src/design_patterns/behavioral/iterator.py:80-85 | before the end it yields the current song and advances by one; at the end it stops and stays |
| IteratorPattern.PlaylistIterator.HasNext | src/design_patterns/behavioral/iterator.py:87-88 | there is a next song exactly while the index is before the end |
| IteratorPattern.ReversePlaylistIterator.constructor | src/design_patterns/behavioral/iterator.py:94-96 | the iterator starts at the last song, or before the start for an empty list |
| IteratorPattern.ReversePlaylistIterator.Next | src/design_patterns/behavioral/iterator.py:101-106 | while the index is not negative it yields that song and steps back by one; otherwise it stops and stays |
| IteratorPattern.CollectForward | src/design_patterns/behavioral/iterator.py:80-85 | running a forward iterator to the end yields the rest of the list in order and leaves it exhausted |
| IteratorPattern.CollectReverse | src/design_patterns/behavioral/iterator.py:101-106 | running a reverse iterator to the end yields the list up to its index backwards |
| IteratorPattern.TotalPages | src/design_patterns/behavioral/iterator.py:160-162 | the page count is the ceiling of items over page size: zero for no items, otherwise the smallest count whose pages hold every item |
| IteratorPattern.Pages | src/design_patterns/behavioral/iterator.py:151-158 | every page holds between one item and a page's worth |
| IteratorPattern.PagesFlatten | src/design_patterns/behavioral/iterator.py:151-158 | reading the pages one after another gives back every item in order |
| IteratorPattern.PagesCount | src/design_patterns/behavioral/iterator.py:151-162 | there are exactly as many pages as the page count says |
| IteratorPattern.PagesBound | src/design_patterns/behavioral/iterator.py:151-158 | the pages are the fewest that hold every item |
| IteratorPattern.PageIsSlice | src/design_patterns/behavioral/iterator.py:151-156 | page k is the slice from k times the page size up to the next page start or the end |
| IteratorPattern.PaginatedIterator.constructor | src/design_patterns/behavioral/iterator.py:143-146 | the paginator starts before the first page |
| IteratorPattern.PaginatedIterator.Next | src/design_patterns/behavioral/iterator.py:151-158 | once the start passes the end it stops and stays; otherwise it yields the next page and advances |
| IteratorPattern.PaginatedIterator.TotalPagesOf | src/design_patterns/behavioral/iterator.py:160-162 | the page count equals the number of pages iteration yields |
| IteratorPattern.CollectPages | src/design_patterns/behavioral/iterator.py:206-213 | iterating a fresh paginator yields exactly the pages, which together are every item in order |
| Mediator.ChatUser.constructor | src/design_patterns/behavioral/mediator.py:47-50 | a new user has its name and mediator and has received nothing |
| Mediator.ChatUser.SetMediator | src/design_patterns/behavioral/mediator.py:52-53 | the mediator is replaced and the received messages stay |
| Mediator.ChatUser.Send | src/design_patterns/behavioral/mediator.py:55-59 | without a mediator nothing is printed or delivered; with one, the send line is followed by each delivery, and every member receives the formatted message once per time it joined, except the sender |
| Mediator.ChatUser.Receive | src/design_patterns/behavioral/mediator.py:61-65 | the message is stored as "[sender]: message" (the function `Mediator.Formatted`) at the end of the received list and echoed |
| Mediator.Delivered | src/design_patterns/behavioral/mediator.py:83-87 | the sender receives nothing, any other member one copy of its formatted message per occurrence in the member list |
| Mediator.ReceiveLinesCount | src/design_patterns/behavioral/mediator.py:83-87 | a relay prints one line per member other than the sender |
| Mediator.ChatRoom.constructor | src/design_patterns/behavioral/mediator.py:74-76 | a new room has its name and no members |
| Mediator.ChatRoom.AddUser | src/design_patterns/behavioral/mediator.py:78-81 | the room becomes the user's mediator and the user is appended to the members |
| Mediator.ChatRoom.SendMessage | src/design_patterns/behavioral/mediator.py:83-87 | each member's received list grows by exactly what is delivered to it, in join order; no member's mediator changes |
| Mediator.DeliveredSnoc | src/design_patterns/behavioral/mediator.py:80-87 | one more entry in the member list gives that member, unless it is the sender, exactly one more copy |
| Mediator.SmartLight.constructor | src/design_patterns/behavioral/mediator.py:119-122 | a new light is off at brightness 100 with no mediator |
| Mediator.SmartLight.SetMediator | src/design_patterns/behavioral/mediator.py:110-111 | only the mediator changes |
| Mediator.SmartLight.TurnOn | src/design_patterns/behavioral/mediator.py:124-127 | the light is on at the given brightness |
| Mediator.SmartLight.TurnOff | src/design_patterns/behavioral/mediator.py:129-131 | the light is off and keeps its brightness |
| Mediator.SmartThermostat.constructor | src/design_patterns/behavioral/mediator.py:135-138 | a new thermostat is at 22.0 degrees in "auto" mode |
| Mediator.SmartThermostat.SetMediator | src/design_patterns/behavioral/mediator.py:110-111 | only the mediator changes |
| Mediator.SmartThermostat.SetTemperature | src/design_patterns/behavioral/mediator.py:140-142 | only the temperature changes, to the given value |
| Mediator.SmartThermostat.SetMode | src/design_patterns/behavioral/mediator.py:144-146 | only the mode changes, to the given value |
| Mediator.SecurityCamera.constructor | src/design_patterns/behavioral/mediator.py:166-168 | a new camera is not recording |
| Mediator.SecurityCamera.SetMediator | src/design_patterns/behavioral/mediator.py:110-111 | only the mediator changes |
| Mediator.SecurityCamera.StartRecording | src/design_patterns/behavioral/mediator.py:170-172 | the camera records |
| Mediator.SecurityCamera.StopRecording | src/design_patterns/behavioral/mediator.py:174-176 | the camera stops recording |
| Mediator.SmartDoorLock.constructor | src/design_patterns/behavioral/mediator.py:150-152 | a new lock is locked |
| Mediator.SmartDoorLock.SetMediator | src/design_patterns/behavioral/mediator.py:110-111 | only the mediator changes |
| Mediator.SmartDoorLock.Lock | src/design_patterns/behavioral/mediator.py:154-157 | the door is locked and, with a mediator, the home reacts to "door_locked" |
| Mediator.SmartDoorLock.Unlock | src/design_patterns/behavioral/mediator.py:159-162 | the door is unlocked and, with a mediator, the home reacts to "door_unlocked" |
| Mediator.MotionSensor.constructor | src/design_patterns/behavioral/mediator.py:180-181 | a new sensor has no mediator |
| Mediator.MotionSensor.SetMediator | src/design_patterns/behavioral/mediator.py:110-111 | only the mediator changes |
| Mediator.MotionSensor.DetectMotion | src/design_patterns/behavioral/mediator.py:183-185 | with a mediator, the home reacts to "motion_detected" |
| Mediator.MotionSensor.DetectNoMotion | src/design_patterns/behavioral/mediator.py:187-189 | with a mediator, the home reacts to "no_motion" |
| Mediator.SmartHomeController.constructor | src/design_patterns/behavioral/mediator.py:201-211 | the five devices are new, carry their names, have this controller as mediator, and start in their initial states |
| Mediator.SmartHomeController.Notify | src/design_patterns/behavioral/mediator.py:213-236 | the light, thermostat and camera move to the event's reaction, whoever sent it, and keep their mediators |
| Mediator.EffectIdempotent | src/design_patterns/behavioral/mediator.py:213-236 | every reaction sets fixed values, so repeating an event changes nothing more |
| Mediator.UnknownEventUnchanged | src/design_patterns/behavioral/mediator.py:213-236 | only the four known events change anything |
| Mediator.RecordingStops | src/design_patterns/behavioral/mediator.py:213-236 | the camera is off afterwards exactly after "no_motion", or when it was off and the event is unknown |
| Mediator.LeaveThenReturn | src/design_patterns/behavioral/mediator.py:226-236 | locking and then unlocking the door leaves the light on at 100, 22 degrees, eco mode and the camera recording |
| Mvc.StatusCountsPartition | src/design_patterns/architectural/mvc.py:120-130 | every task has exactly one status, so the done, in-progress and to-do counts add up to the total |
| Mvc.StoredValuesIncrease | src/design_patterns/architectural/mvc.py:79-96 | in a model whose tasks are stored under their own increasing ids, the listed tasks' ids increase |
| Mvc.RemoveFiltersOut | src/design_patterns/architectural/mvc.py:95-112 | deleting a stored id leaves the list of tasks with just that task filtered out |
| Mvc.FilterDropsOne | src/design_patterns/architectural/mvc.py:107-112 | filtering out an id held by exactly one task drops that task and keeps the others in order |
| Mvc.AbsentFiltersNothing | src/design_patterns/architectural/mvc.py:107-112 | filtering out an id that is not stored changes nothing |
| Mvc.FilterKeepsAll | src/design_patterns/architectural/mvc.py:107-112 | filtering out an id that no task has keeps the list as it is |
| Mvc.TaskModel.constructor | src/design_patterns/architectural/mvc.py:67-70 | a new model has no tasks, the next id 1 and no notifications |
| Mvc.TaskModel.AllTasksInOrder | src/design_patterns/architectural/mvc.py:87-96 | the tasks come out oldest first: their ids increase along the list |
| Mvc.TaskModel.GetTask | src/design_patterns/architectural/mvc.py:92-93 | a task is found exactly for a stored id, and it carries that id and is one of the listed tasks |
| Mvc.TaskModel.AddTask | src/design_patterns/architectural/mvc.py:79-90 | the new to-do task gets the next id, is stored under it and listed last; the next id advances and observers are notified once |
| Mvc.TaskModel.UpdateStatus | src/design_patterns/architectural/mvc.py:98-105 | an unknown id changes nothing; a stored task gets the new status and, on becoming done, the completion time, and observers are notified once |
| Mvc.TaskModel.DeleteTask | src/design_patterns/architectural/mvc.py:107-112 | a task is deleted exactly when its id is stored; the list is the old one with that task filtered out; observers are notified only on a deletion |
| Mvc.TaskModel.TasksByStatus | src/design_patterns/architectural/mvc.py:114-115 | exactly the listed tasks with that status, in list order |
| Mvc.TaskModel.TasksByPriority | src/design_patterns/architectural/mvc.py:117-118 | exactly the listed tasks with that priority, in list order |
| Mvc.TaskModel.GetStats | src/design_patterns/architectural/mvc.py:120-130 | the total is the number of tasks and equals the sum of the three status counts |
| Mvc.PriorityIgnoresCase | src/design_patterns/architectural/mvc.py:219 | the priority text is read without regard to letter case |
| Mvc.PriorityNames | src/design_patterns/architectural/mvc.py:213-219 | "low", "high" and "critical" in any letter case give their priorities, and any other text falls back to Medium |
| Mvc.TaskController.constructor | src/design_patterns/architectural/mvc.py:205-208 | the controller works on the given model |
| Mvc.TaskController.CreateTask | src/design_patterns/architectural/mvc.py:210-221 | a to-do task with the parsed priority is listed last under the next id, the next id and the notification count each grow by one, and the message names its title and id |
| Mvc.TaskController.CompleteTask | src/design_patterns/architectural/mvc.py:223-229 | only the stored task changes, to done with its completion time, in its place in the list; one notification is sent and the message names it; an unknown id changes nothing and is reported not found; the next id never changes |
| Mvc.TaskController.StartTask | src/design_patterns/architectural/mvc.py:231-237 | only the stored task changes, to in progress, in its place in the list; one notification is sent and the message names it; an unknown id changes nothing and is reported not found; the next id never changes |
| Mvc.TaskController.DeleteTask | src/design_patterns/architectural/mvc.py:239-244 | the id is gone afterwards and the other tasks stay in their order; a stored task costs one notification; the next id never changes; the message says deleted or not found as it was stored or not |
| Observer.CustomerNotifier.constructor | src/design_patterns/behavioral/observer.py:52-54 | a new customer notifier has its name and no notifications |
| Observer.CustomerNotifier.Update | src/design_patterns/behavioral/observer.py:56-59 | exactly one message naming the customer, order, status text (the enum's value, `Observer.StatusValue`) and details is stored and printed |
| Observer.DashboardUpdater.constructor | src/design_patterns/behavioral/observer.py:65-66 | a new dashboard has no entries |
| Observer.DashboardUpdater.Update | src/design_patterns/behavioral/observer.py:68-71 | one entry with the order id, status text (`Observer.StatusValue`) and given time is appended, and the update line is printed |
| Observer.InventoryLines | src/design_patterns/behavioral/observer.py:77-81 | the inventory prints one line exactly for a confirmed or delivered order, and nothing otherwise |
| Observer.DeliveryLines | src/design_patterns/behavioral/observer.py:87-89 | the delivery team prints one line exactly for a shipped, out-for-delivery or delivered order |
| Observer.InventoryManager.Update | src/design_patterns/behavioral/observer.py:77-81 | prints the inventory lines for the status and changes nothing |
| Observer.DeliveryTracker.Update | src/design_patterns/behavioral/observer.py:87-89 | prints the delivery lines for the status and changes nothing |
| Observer.NotifyOne | src/design_patterns/behavioral/observer.py:45-89 | an update dispatches on the kind of subscriber: only that subscriber's log grows, by its one entry |
| Observer.Order.constructor | src/design_patterns/behavioral/observer.py:99-102 | a new order is placed and has no subscribers |
| Observer.Order.Subscribe | src/design_patterns/behavioral/observer.py:104-106 | the subscriber is appended and the status stays |
| Observer.Order.Unsubscribe | src/design_patterns/behavioral/observer.py:108-110 | removing succeeds exactly for a subscriber in the list and drops its first subscription; otherwise it raises and nothing changes |
| Seqs.RemoveFirstAt | src/design_patterns/behavioral/observer.py:110 | `list.remove` drops the first occurrence of the element and keeps the others in their order |
| Observer.Order.UpdateStatus | src/design_patterns/behavioral/observer.py:112-120 | the status is set; the banner is followed by each subscriber's lines in subscription order; each customer and dashboard gets one entry per time it subscribed |
| Observer.NotifyAll | src/design_patterns/behavioral/observer.py:118-120 | every subscriber, in order, gets its update once per subscription |
| Observer.NotifyLinesCount | src/design_patterns/behavioral/observer.py:56-120 | the number of lines printed is one per customer and dashboard, plus inventories on confirmed or delivered, plus delivery trackers on shipped, out for delivery or delivered |
| Observer.TriggeredStrict | src/design_patterns/behavioral/observer.py:150-155 | "above" fires exactly above the threshold and "below" exactly below it; the threshold itself and any other direction never fire |
| Observer.PriceAlertObserver.constructor | src/design_patterns/behavioral/observer.py:144-148 | a new alert has its name, threshold and direction and no alerts |
| Observer.PriceAlertObserver.OnPriceChange | src/design_patterns/behavioral/observer.py:150-158 | an alert is appended exactly when the price triggers it |
| Observer.PortfolioTracker.constructor | src/design_patterns/behavioral/observer.py:164-166 | a new portfolio has no holdings and no prices |
| Observer.PortfolioTracker.AddHolding | src/design_patterns/behavioral/observer.py:168-169 | the holding is set to the quantity, replacing any earlier one; prices stay |
| Observer.PortfolioTracker.OnPriceChange | src/design_patterns/behavioral/observer.py:171-175 | the latest price of the symbol is recorded and the holdings stay |
| Observer.PriceChange | src/design_patterns/behavioral/observer.py:189-190 | the change is the new price less the stored one, and zero for a symbol seen for the first time |
| Observer.ChangesReplayUpdates | src/design_patterns/behavioral/observer.py:188-192 | a run of price updates records, at each step, the change against the price the previous step stored |
| Observer.ChangesTelescope | src/design_patterns/behavioral/observer.py:188-192 | the changes recorded after a first price add up to the last price less that first one |
| Observer.NewSymbolChanges | src/design_patterns/behavioral/observer.py:189-190 | for a new symbol the first change is zero and all changes add up to the last price less the first |
| Observer.StockMarket.constructor | src/design_patterns/behavioral/observer.py:182-183 | a new market has no stocks and no subscribers |
| Observer.StockMarket.Subscribe | src/design_patterns/behavioral/observer.py:185-186 | the subscriber is appended and the stocks stay |
| Observer.StockMarket.UpdatePrice | src/design_patterns/behavioral/observer.py:188-198 | the symbol's price and change are stored; each alert subscriber gets the alert once per subscription exactly when it is triggered; each portfolio records the new price |
| Observer.ReactOne | src/design_patterns/behavioral/observer.py:137-175 | a reaction dispatches on the kind of subscriber and only that subscriber's log grows |
| Observer.NotifyPrice | src/design_patterns/behavioral/observer.py:197-198 | every subscriber, in order, reacts once per subscription to the new price |
| Prototype.Document.constructor | src/design_patterns/creational/prototype.py:23-38 | a new document holds the given fields |
| Prototype.Document.Clone | src/design_patterns/creational/prototype.py:40-42 | the clone is a new object with the same fields, so changing it leaves the original alone |
| Prototype.WithKey | src/design_patterns/creational/prototype.py:68-79 | assigning a dictionary key keeps the key list free of repeats: a new name goes last and an existing one stays in place |
| Prototype.DocumentTemplateRegistry.constructor | src/design_patterns/creational/prototype.py:63-64 | a new registry has no templates |
| Prototype.DocumentTemplateRegistry.Register | src/design_patterns/creational/prototype.py:66-68 | the name now maps to the template, replacing any earlier one, and the name order follows dictionary insertion |
| Prototype.DocumentTemplateRegistry.CreateFromTemplate | src/design_patterns/creational/prototype.py:70-75 | an unregistered name raises "Template '…' not found"; a registered one gives a new copy equal to its template |
| Prototype.DocumentTemplateRegistry.ListTemplates | src/design_patterns/creational/prototype.py:77-79 | the registered names in first-registration order, every one once each, and nothing else |
| Prototype.ReRegisterKeepsOrder | src/design_patterns/creational/prototype.py:66-79 | registering a name twice lists it once at its first position, and a new name is listed last |
| Prototype.DemoInvoice | src/design_patterns/creational/prototype.py:136-168 | the customised invoice is a separate object with the new title, content and invoice number, while the template keeps its fields |
| Prototype.GameCharacter.constructor | src/design_patterns/creational/prototype.py:87-103 | a new character holds the given fields |
| Prototype.GameCharacter.Clone | src/design_patterns/creational/prototype.py:105-107 | the clone is a new object with the same fields |
| Prototype.CloneWarrior | src/design_patterns/creational/prototype.py:185-190 | the warrior is the template with its own name, health, attack, weapon and position |
| Prototype.CloneArcher | src/design_patterns/creational/prototype.py:192-197 | the archer is the template with its own name, attack, extra ability, weapon and position |
| Prototype.DemoGoblins | src/design_patterns/creational/prototype.py:175-204 | after both clones are customised the template still has its original abilities and equipment |
| Proxy.InternetProxy.constructor | src/design_patterns/structural/proxy.py:57-59 | a new proxy has an empty access log |
| Proxy.InternetProxy.ConnectTo | src/design_patterns/structural/proxy.py:61-72 | every call logs exactly one entry for the URL; it is blocked, with the blocked reply, exactly when a blocked site occurs in the lower-cased URL (the predicate `Proxy.IsBlocked`), and otherwise allowed with the real connection's reply |
| Proxy.InternetProxy.GetAccessLog | src/design_patterns/structural/proxy.py:74-76 | the entries returned are the log as it stands |
| Proxy.BlockingIgnoresCase | src/design_patterns/structural/proxy.py:64 | URLs that differ only in letter case are blocked alike |
| Proxy.EmbeddedSiteBlocked | src/design_patterns/structural/proxy.py:49-67 | any URL containing a blocked site, whatever surrounds it, is blocked |
| Proxy.RealWeatherAPI.constructor | src/design_patterns/structural/proxy.py:95-96 | a new service has made no calls |
| Proxy.RealWeatherAPI.GetWeather | src/design_patterns/structural/proxy.py:98-107 | each call counts once and returns the live reading for the city |
| Proxy.GetWeatherStep | src/design_patterns/structural/proxy.py:129-147 | a fresh cached entry under the lower-cased city is a hit: only the hit count grows and the stored reading is returned with its age; otherwise it is a miss that calls the service and stores the live reading with the current time |
| Proxy.GetWeatherRun | src/design_patterns/structural/proxy.py:129-147 | any run of lookups keeps the cache consistent |
| Proxy.RunCountsLookups | src/design_patterns/structural/proxy.py:129-154 | every lookup is either a hit or a miss, and only misses reach the real service |
| Proxy.HitAfterMiss | src/design_patterns/structural/proxy.py:129-147 | within the time to live after a miss, any spelling of the same city is a hit returning the reading the miss stored |
| Proxy.HitChangesNoCache | src/design_patterns/structural/proxy.py:133-140 | a hit changes neither the cache, nor its time stamps, nor the real service's counter |
| Proxy.CachingWeatherProxy.constructor | src/design_patterns/structural/proxy.py:121-127 | a new proxy has an empty cache, no hits, no misses and a fresh service with no calls |
| Proxy.CachingWeatherProxy.GetWeather | src/design_patterns/structural/proxy.py:129-147 | the proxy's state and answer are those of the cache step at the given time |
| Proxy.CachingWeatherProxy.GetStats | src/design_patterns/structural/proxy.py:149-154 | reports the hits, the misses and the real calls, and the last two are always equal |
| Proxy.RealImage.constructor | src/design_patterns/structural/proxy.py:176-182 | creating the image loads it, with its data text |
| Proxy.RealImage.Display | src/design_patterns/structural/proxy.py:184-185 | displays the file name |
| Proxy.LazyImageProxy.constructor | src/design_patterns/structural/proxy.py:198-200 | a new proxy has not loaded the image |
| Proxy.LazyImageProxy.Display | src/design_patterns/structural/proxy.py:202-206 | the first display loads the image, later ones reuse it, so it is loaded exactly once; the reply is the real image's |
| Repository.InMemoryRepository.constructor | src/design_patterns/architectural/repository.py:121-171 | a new repository is empty and its next id is 1 |
| Repository.InMemoryRepository.FindAll | src/design_patterns/architectural/repository.py:128-177 | every stored item has an id, and the items come in increasing id order, which is the order they were added |
| Repository.InMemoryRepository.FindById | src/design_patterns/architectural/repository.py:125-174 | an item is found exactly for a stored id, and it carries that id and is among all items |
| Repository.InMemoryRepository.Add | src/design_patterns/architectural/repository.py:131-183 | the item gets the next id, is stored under it and listed last; the next id advances by one |
| Repository.InMemoryRepository.Update | src/design_patterns/architectural/repository.py:137-189 | an item whose id is set and stored replaces the stored one; otherwise it raises "… with id … not found" and nothing changes |
| Repository.InMemoryRepository.Delete | src/design_patterns/architectural/repository.py:143-195 | deletion happens exactly for a stored id, and afterwards the id is not found |
| Repository.NewUserRepository | src/design_patterns/architectural/repository.py:121-123 | a new user repository is empty and names its entity "User" |
| Repository.NewProductRepository | src/design_patterns/architectural/repository.py:169-171 | a new product repository is empty and names its entity "Product" |
| Repository.FindByUsername | src/design_patterns/architectural/repository.py:150-154 | the lookup returns the earliest-added user with that name, or None exactly when no user has it |
| Repository.FindByEmail | src/design_patterns/architectural/repository.py:156-160 | the lookup returns the earliest-added user with that address, or None exactly when no user has it |
| Repository.FindActiveUsers | src/design_patterns/architectural/repository.py:162-163 | exactly the stored users that are active, in stored order |
| Repository.FindByCategory | src/design_patterns/architectural/repository.py:197-198 | exactly the stored products of that category, in stored order |
| Repository.FindInStock | src/design_patterns/architectural/repository.py:200-201 | exactly the stored products with stock above zero, in stored order |
| Repository.FindByPriceRange | src/design_patterns/architectural/repository.py:203-207 | exactly the stored products priced within both bounds inclusive, in stored order |
| Repository.RegisterUser | src/design_patterns/architectural/repository.py:227-229 | the new active user gets the next id and is listed last |
| Repository.DeactivateUser | src/design_patterns/architectural/repository.py:231-236 | an unknown id changes nothing and gives None; a stored user is stored again as inactive and returned |
| Repository.SearchByBudget | src/design_patterns/architectural/repository.py:258-259 | the repository's price-range search from 0 up to the budget: exactly those stored products, in stored order |
| Repository.AddProduct | src/design_patterns/architectural/repository.py:251-253 | the new product gets the next id and is listed last |
| Repository.AvailableProducts | src/design_patterns/architectural/repository.py:255-256 | exactly the stored products in stock, in stored order |
| Singleton.AppConfig.constructor | src/design_patterns/creational/singleton.py:56-57 | a new configuration holds no settings |
| Singleton.AppConfig.Set | src/design_patterns/creational/singleton.py:59-61 | the key now maps to the value, replacing any earlier one; other keys keep theirs |
| Singleton.AppConfig.Get | src/design_patterns/creational/singleton.py:63-65 | the stored value for a set key, the default for any other |
| Singleton.AppConfig.GetAll | src/design_patterns/creational/singleton.py:67-69 | a copy of every setting |
| Singleton.DemoConfig | src/design_patterns/creational/singleton.py:130-139 | through the second reference the demonstration reads back the database URL and both settings |
| Singleton.Entry | src/design_patterns/creational/singleton.py:92-96 | an entry is the upper-cased level in brackets, a space and the message |
| Singleton.EntryInjective | src/design_patterns/creational/singleton.py:92-96 | for levels without "]", an entry determines the upper-cased level and the message |
| Singleton.Logger.constructor | src/design_patterns/creational/singleton.py:89-90 | a new logger has no entries |
| Singleton.Logger.Log | src/design_patterns/creational/singleton.py:92-96 | exactly one entry is appended and returned |
| Singleton.Logger.Info | src/design_patterns/creational/singleton.py:98-99 | appends and returns "[INFO] " and the message |
| Singleton.Logger.Warning | src/design_patterns/creational/singleton.py:101-102 | appends and returns "[WARNING] " and the message |
| Singleton.Logger.Error | src/design_patterns/creational/singleton.py:104-105 | appends and returns "[ERROR] " and the message |
| Singleton.Logger.GetLogs | src/design_patterns/creational/singleton.py:107-109 | a copy of the entries in logging order |
| Singleton.DemoLogger | src/design_patterns/creational/singleton.py:145-156 | the three entries logged through two references come back in order from the second |
| SolidPrinciples.Validate | src/oops_concepts/solid_principles.py:52-60 | no message exactly when the registration follows every rule; each message appears exactly when its rule is broken, and the messages keep the order the rules are checked in |
| SolidPrinciples.SubsequenceOfErrors | src/oops_concepts/solid_principles.py:52-60 | the three messages are different, and any choice of them in checking order is a subsequence of all three |
| SolidPrinciples.UserRepository.constructor | src/oops_concepts/solid_principles.py:66-67 | a new repository has no users |
| SolidPrinciples.UserRepository.Save | src/oops_concepts/solid_principles.py:69-71 | the user's email is stored under the name, replacing any earlier record, and the save message names the user |
| SolidPrinciples.UserRepository.Find | src/oops_concepts/solid_principles.py:73-74 | the stored record for a saved name, None exactly for a name never saved |
| SolidPrinciples.UserRegistrationService.constructor | src/oops_concepts/solid_principles.py:87-90 | a new service has a fresh, empty repository |
| SolidPrinciples.UserRegistrationService.Register | src/oops_concepts/solid_principles.py:92-99 | an acceptable registration is saved and reported registered; otherwise the repository is left as it was and the failure lists the validation messages joined by ", " |
| SolidPrinciples.AliceAcceptable | src/oops_concepts/solid_principles.py:356 | the demonstration's first registration follows every rule |
| SolidPrinciples.BadRegistrationErrors | src/oops_concepts/solid_principles.py:357 | the demonstration's second registration breaks all three rules, in checking order |
| SolidPrinciples.DemoRegistration | src/oops_concepts/solid_principles.py:355-357 | after the demonstration the good user is found with its email and the bad registration reports all three messages |
| StatePattern.OrderStep | src/design_patterns/behavioral/state.py:56-153 | a handler confirms exactly when it moves the order to another state, and warns when the order stays where it is |
| StatePattern.OrderTransitions | src/design_patterns/behavioral/state.py:56-153 | the only moves that change an order's state are process and cancel from pending, cancel and ship from processing, and deliver from shipped |
| StatePattern.Entering | src/design_patterns/behavioral/state.py:59-112 | processing is entered only by processing a pending order, shipped only by shipping a processing one, delivered only by delivering a shipped one |
| StatePattern.CancelOnlyBeforeShipping | src/design_patterns/behavioral/state.py:63-125 | an order becomes cancelled only through cancel, and only while it is pending or processing |
| StatePattern.OrderRunAppend | src/design_patterns/behavioral/state.py:168-178 | performing two lists of actions one after the other is performing their concatenation |
| StatePattern.FinalOrderStatesAbsorb | src/design_patterns/behavioral/state.py:118-153 | delivered and cancelled orders stay in their state whatever actions follow |
| StatePattern.CancelledNeverDelivered | src/design_patterns/behavioral/state.py:137-150 | once an order has been cancelled, no later action brings it to any other state, so it is never delivered |
| StatePattern.EntersAt | src/design_patterns/behavioral/state.py:165-178 | a run that ends in a state it did not start in has a first step that enters that state |
| StatePattern.DeliveredPassedEveryStage | src/design_patterns/behavioral/state.py:59-112 | every delivered order was processed, later shipped and later delivered, each while in the state that allows it |
| StatePattern.OnlineOrder.constructor | src/design_patterns/behavioral/state.py:161-163 | a new order keeps its id and starts pending |
| StatePattern.OnlineOrder.SetState | src/design_patterns/behavioral/state.py:165-166 | the state is replaced by the given one |
| StatePattern.OnlineOrder.Perform | src/design_patterns/behavioral/state.py:168-178 | the order moves to the state the current state's handler chooses and returns that handler's message |
| StatePattern.OnlineOrder.Process | src/design_patterns/behavioral/state.py:168-169 | delegates process to the current state |
| StatePattern.OnlineOrder.Cancel | src/design_patterns/behavioral/state.py:171-172 | delegates cancel to the current state |
| StatePattern.OnlineOrder.Ship | src/design_patterns/behavioral/state.py:174-175 | delegates ship to the current state |
| StatePattern.OnlineOrder.Deliver | src/design_patterns/behavioral/state.py:177-178 | delegates deliver to the current state |
| StatePattern.LateActionsWarn | src/design_patterns/behavioral/state.py:104-131 | a shipped order refuses cancelling with the in-transit warning, and a delivered order answers a second delivery with a warning, both without moving |
| StatePattern.DemoOrder | src/design_patterns/behavioral/state.py:290-304 | the demonstration's first order ends delivered, after the late cancel and the second delivery were refused with their warnings |
| StatePattern.DemoCancelledOrder | src/design_patterns/behavioral/state.py:308-312 | the demonstration's second order is cancelled and then refuses to be processed |
| StatePattern.PlayerStep | src/design_patterns/behavioral/state.py:207-251 | a player handler confirms exactly when it changes the player's state |
| StatePattern.PlayerActionsTargets | src/design_patterns/behavioral/state.py:207-248 | play always ends playing, stop always ends stopped, and pause pauses only a playing player and leaves any other state alone |
| StatePattern.AudioPlayer.constructor | src/design_patterns/behavioral/state.py:255-257 | a new player keeps its song and starts stopped |
| StatePattern.AudioPlayer.SetState | src/design_patterns/behavioral/state.py:259-260 | the state is replaced by the given one |
| StatePattern.AudioPlayer.Perform | src/design_patterns/behavioral/state.py:262-269 | the player moves to the state the current state's handler chooses and returns that handler's message |
| StatePattern.AudioPlayer.Play | src/design_patterns/behavioral/state.py:262-263 | delegates play to the current state |
| StatePattern.AudioPlayer.Pause | src/design_patterns/behavioral/state.py:265-266 | delegates pause to the current state |
| StatePattern.AudioPlayer.Stop | src/design_patterns/behavioral/state.py:268-269 | delegates stop to the current state |
| Strategy.PercentageDiscount | src/design_patterns/behavioral/strategy.py:57-58 | the stored percentage is the given one, capped at 100 |
| Strategy.SeasonRate | src/design_patterns/behavioral/strategy.py:95-103 | the rate of the lower-cased season in the table, or 0 for a season the table does not hold |
| Strategy.PercentageDiscountNonNegative | src/design_patterns/behavioral/strategy.py:57-61 | a percentage discount built from a non-negative percentage never takes off a negative amount |
| Strategy.SeasonRateBounded | src/design_patterns/behavioral/strategy.py:95-103 | every seasonal rate lies between 0 and 100 percent |
| Strategy.DiscountWithinPrice | src/design_patterns/behavioral/strategy.py:44-104 | for a non-negative price, every non-negative strategy takes off at least nothing and at most the price |
| Strategy.FlatDiscountCapped | src/design_patterns/behavioral/strategy.py:73-74 | the flat discount is the amount or the price, whichever is smaller, so it never drives the price below zero |
| Strategy.SeasonCaseInsensitive | src/design_patterns/behavioral/strategy.py:102-104 | the letter case of the season does not change the discount |
| Strategy.UnknownSeasonFree | src/design_patterns/behavioral/strategy.py:103 | a season missing from the table gives no discount |
| Strategy.BlackFridayRate | src/design_patterns/behavioral/strategy.py:98-104 | the black friday sale takes off 40 percent of any price |
| Strategy.SubtotalAppend | src/design_patterns/behavioral/strategy.py:127-135 | adding an item raises the subtotal by exactly its price times its quantity |
| Strategy.SubtotalNonNegative | src/design_patterns/behavioral/strategy.py:134-135 | with non-negative prices and quantities the subtotal is non-negative |
| Strategy.ShoppingCart.constructor | src/design_patterns/behavioral/strategy.py:123-125 | a new cart is empty and uses the given strategy, or no discount when none is given |
| Strategy.ShoppingCart.AddItem | src/design_patterns/behavioral/strategy.py:127-128 | the item joins at the end, the strategy is kept, and the subtotal rises by the item's line total |
| Strategy.ShoppingCart.SetDiscountStrategy | src/design_patterns/behavioral/strategy.py:130-132 | only the strategy changes; the items and the subtotal stay as they were |
| Strategy.Total | src/design_patterns/behavioral/strategy.py:137-141 | the total and the discount add up to the subtotal; without a discount the total is the subtotal, a flat discount never makes it negative, and a non-negative strategy on well-formed items keeps it between zero and the subtotal |
| Strategy.TotalBounds | src/design_patterns/behavioral/strategy.py:137-141 | the flat-discount total is non-negative, and a non-negative strategy's discount on well-formed items lies between zero and the subtotal |
| Strategy.DemoTotals | src/design_patterns/behavioral/strategy.py:211-234 | the demonstration cart's subtotal is 125.96, and its totals are 100.768 with 20 percent off, 75.576 on black friday and 110.96 with 15 off |
| Strategy.Insert | src/design_patterns/behavioral/strategy.py:182 | inserting adds exactly the one element to the list's contents |
| Strategy.SortBy | src/design_patterns/behavioral/strategy.py:182 | the sort is a permutation of its input |
| Strategy.InsertSorted | src/design_patterns/behavioral/strategy.py:182 | inserting into a list ordered by the key keeps it ordered |
| Strategy.InsertLowerBound | src/design_patterns/behavioral/strategy.py:182 | inserting keeps any lower bound that the new element and every old element respect |
| Strategy.SortBySorted | src/design_patterns/behavioral/strategy.py:182 | the sort's result is ordered by the key |
| Strategy.FilterCons | src/design_patterns/behavioral/strategy.py:182 | filtering a list with one element in front filters that element and then the rest |
| Strategy.InsertStable | src/design_patterns/behavioral/strategy.py:182 | an inserted element lands in front of every element with the same key |
| Strategy.SortByStable | src/design_patterns/behavioral/strategy.py:182 | the sort is stable: the elements with any one key keep their input order |
| Strategy.LowToHighSpec | src/design_patterns/behavioral/strategy.py:180-182 | low to high returns the same items, in ascending price, with equally priced items in input order |
| Strategy.HighToLowSpec | src/design_patterns/behavioral/strategy.py:188-190 | high to low returns the same items, in descending price, with equally priced items in input order, as a reversed stable sort keeps them |
| TemplateMethod.ValidateCsv | src/design_patterns/behavioral/template_method.py:96-101 | keeps exactly the records with a non-empty name and an all-digit age, in their input order |
| TemplateMethod.TransformCsv | src/design_patterns/behavioral/template_method.py:103-111 | one output per record with the upper-cased name, the age as a number and the city; the error result, a missing "city", comes exactly when some record lacks a city |
| TemplateMethod.ProcessCsv | src/design_patterns/behavioral/template_method.py:37-114 | reading, validating, transforming and saving in that order: the saved result counts every valid record, and a transform error is passed on |
| TemplateMethod.BundledCsvValid | src/design_patterns/behavioral/template_method.py:89-101 | of the four bundled CSV records, only Alice's and Diana's pass validation |
| TemplateMethod.BundledCsvProcessed | src/design_patterns/behavioral/template_method.py:89-111 | processing the bundled CSV records yields ALICE aged 30 in New York and DIANA aged 28 in Houston |
| TemplateMethod.ValidateJsonKeeps | src/design_patterns/behavioral/template_method.py:128-132 | keeps exactly the records with a product and a positive price, in their input order |
| TemplateMethod.TransformJson | src/design_patterns/behavioral/template_method.py:134-142 | one output per record with its product and price, available exactly when it is in stock |
| TemplateMethod.ProcessJsonCounts | src/design_patterns/behavioral/template_method.py:37-145 | the JSON result is tagged JSON, counts every valid record, and saves one output per valid record, each taken from a record that was read |
| TemplateMethod.BundledJsonProcessed | src/design_patterns/behavioral/template_method.py:120-145 | processing the bundled JSON records saves the laptop, the phone and the tablet, and only the tablet is unavailable |
| TemplateMethod.Steps | src/design_patterns/behavioral/template_method.py:162-170 | every drink starts with boiling water, its own brewing step and pouring, and has a fourth step exactly when the hook asks for condiments |
| TemplateMethod.MakeRecipe | src/design_patterns/behavioral/template_method.py:162-188 | the recipe joins the three fixed steps with arrows and appends the condiments step exactly when the hook wants it |
| TemplateMethod.JoinSteps | src/design_patterns/behavioral/template_method.py:170 | joining three or four steps puts the separator between each neighbouring pair |
| TemplateMethod.BlackCoffeeSteps | src/design_patterns/behavioral/template_method.py:215-225 | black coffee is made in three steps without condiments |

## Left out

- Every `demo()` function and every `print`, including `TaskView` and the notification service's `_log`: they only display results. Where a demo computes something, a demo lemma or method states those values.
- Wall-clock times: the MVC creation and completion times, user creation times, the dashboard time stamp, the proxy access-log times and the cache timestamps. The cache and the dashboard take the time as a parameter; the others drop it.
- Python `hash()`: the facade's transaction and tracking ids are dropped or passed in, and the account password is compared by equality instead of by hash.
- Floating-point formatting: the `.2f` money strings in receipts, transactions, alerts and JSON prices, the completion-rate text, the printed portfolio value and the cache-age text. Numbers are kept as numbers.
- Floating-point functions: the circle's area and perimeter (`math.pi`), the triangle's area (`math.sqrt`), temperature conversion, `MathHelper.circle_area`, and the OCP shape areas in the SOLID example.
- Default arguments: every default argument of the source becomes either an explicit parameter, which callers fill with the default where a demo relies on it, or a named constant of the model. The defaults in the modelled files are: the adapters' currencies `"usd"`, `"USD"` and `"INR"` (`adapter.py` lines 107, 129 and 149); the factory processors' currencies `"USD"` and `"INR"` (`factory.py` lines 43-111); the rate limiter's `max_requests=5`, the request's empty `body` and no `headers`, and the response's `status=200` and empty `body` (`decorator.py` lines 183, 100 and 109); `set_premium(is_premium=True)` (`builder.py` line 179); `charge(amount=100)` and `Temperature(celsius=0.0)` (`encapsulation.py` lines 59 and 106); the weather cache's `cache_ttl_seconds=300` (`proxy.py` line 121); every `display(indent=0)` (`composite.py` lines 41-135); `page_size=3` (`iterator.py` line 143); `details=""`, `direction="above"` and `StockPrice.change=0.0` (`observer.py` lines 112, 144 and 132); `quantity=1` and `discount_strategy=None` (`strategy.py` lines 114 and 123); `mediator=None`, `turn_on(brightness=100)` and the five device names (`mediator.py` lines 47, 124 and 119-180); `get(default=None)` (`singleton.py` line 63); `balance=0.0` (`classes_and_objects.py` line 87); `type="DDR5"`, `type="SSD"` and `gpu=None` (`composition.py` lines 141, 152 and 185); `indoor=True`, `can_fly=True`, `doors=4`, `tech_stack=None` and `mentees=0` (`inheritance.py` lines 69, 83, 118, 202 and 241-242); `currency="USD"` (`polymorphism.py` line 165); and `description=""` (`mvc.py` lines 79 and 210).
- Binary floating point before truncation in the payment adapters: `Adapter.MinorUnits` truncates the exact real `amount * 100` toward zero as `int()` does, but the source first multiplies two binary floats, so its result can be one smaller. Python's `int(19.99 * 100)` is 1998, because the product is 1998.9999999999998, while `MinorUnits(19.99)` is 1999.
- Float parsing in `Employee.from_string`: it is a parameter of the model.
- `SingletonMeta` and its double-checked locking: it exists for thread safety, and each singleton is modelled as one shared object.
- `ShufflePlaylistIterator`: it depends on `random.shuffle`.
- The Python machinery shown in the inheritance and polymorphism examples: MRO, `isinstance`, ABC instantiation errors and duck typing. Canned texts that take no decision (the animal, vehicle and MRO greetings, `Employee.__str__`, `hire_date`, and the `__str__` of documents and game characters) are also left out.
- The open/closed, Liskov, interface-segregation and dependency-inversion shapes of the SOLID example, and its `BadUserManager`: they contain no logic beyond canned strings or floating point. `WelcomeEmailSender.send` is modelled, but its result is discarded by the service just as in the source.
- `MathHelper.add` and `MathHelper.is_even` (`classes_and_objects.py` lines 136-143): they are Python's float `+` and `n % 2 == 0`, with no logic of their own to model.
- The payment processors and `checkout` of the polymorphism example (`polymorphism.py` lines 205-248): each `process` only formats the amount with two decimals, which falls under the floating-point formatting line above, and `checkout` only shows duck typing.
- `page_size <= 0` in the paginated collection: `TotalPages`, `Pages`, its lemmas and `PaginatedIterator` require a positive page size. In the source, a zero size makes `total_pages` raise a ZeroDivisionError (`iterator.py` lines 160-162), a negative size makes it `-(-n // size)`, a count of zero or less, and on a non-empty list `__next__` never reaches its stop condition: a zero size yields empty pages forever, and a negative one yields slices that never pass the end.
- The strategies' `get_name` texts and `print_receipt`: they only display the strategy and the totals the model computes.
- `AlphabeticalSort`: it sorts by Python's `str()` of arbitrary objects, which this model does not represent.
- `str()` of enums and the `repr` of dicts inside messages: the messages use the enum's value and state the stored data, not Python's rendering of it.
- Unicode: `upper`, `lower`, `title`, `isdigit` and `strip` are ASCII-only here; Python's `str.strip()` also removes Unicode white space, which `Text.Strip` keeps.
- Builder setters return `self` for chaining. The model states each setter's effect on the held product; the chaining is the caller's sequence of calls.
- Composite.FolderNode.Remove: removes the first child equal in value to the item, because items are values. The source's `list.remove` (`composite.py` lines 72-74) compares file-system objects that define no `__eq__`, so it removes by object identity: among equal children it removes the very object passed, and an equal but distinct object raises ValueError where the model removes a child.
- Factory.PaymentFactory.Register: processors form a closed datatype of the four built-in processors, so registering can only bind a payment method to one of them. A user-defined processor class, the extension `PaymentFactory.register` (`factory.py` lines 151-154) exists for, cannot be expressed.
- Repository.InMemoryRepository.Add, Repository.InMemoryRepository.Update, Repository.DeactivateUser, Mvc.TaskModel.UpdateStatus: users, products and tasks are values, so the sharing between the caller and the store is not represented. In the source `add` stores the very object it is given after setting its `id` (`repository.py` lines 132 and 180), `find_by_id` and `get_task` return the stored object, and `deactivate_user` and `update_status` change that object's fields in place (`repository.py` line 234, `mvc.py` lines 101-103). A later change through any such reference therefore changes the store without an `update`; in the model the store changes only through its own operations.
- Object aliasing inside composites: nested folders, reports and prototype contents are values, so two parents sharing one child object are not represented.
- Dependency-injection factories are functions, which cannot allocate: each resolve of a factory gives an equal value, not a fresh object.
- The middleware decorators are values threaded through the handler, not a chain of heterogeneous objects.
- Some emoji texts in `chain_of_responsibility.py` and `iterator.py` are mis-encoded in the source file. The model uses the intended characters.
- The facade's `refund`, `OrderConfirmation` and shipping notification texts are modelled as functions without contracts of their own.
- `get_status` of the order and of the player is a reading function of the class, so it cannot change the state.
- Polymorphism.RectangleAreaBound: states the square bound as an inequality, and its equality only for the square.
- Polymorphism.Mul: its own contract states only that the currency is kept. The amount is related to addition by `Polymorphism.MulDistributesOverAdd`.
- Facade.ValidateCard: its own contract states the implications. The exact characterisation (sixteen non-space characters) is `Facade.CardCountsNonSpaces`.
- TemplateMethod.TransformCsv: requires a name and an all-digit age on every record. In the source, the other cases raise a KeyError or a ValueError, and the pipeline only passes it records that validation guarantees have both. The missing city, which the pipeline can reach, is modelled as the error result.
- TemplateMethod.TransformJson: keeps the price as a number rather than the `$` text with two decimals.
