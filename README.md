# Micro8gentSuite server core in Dafny

This project models the server side of Micro8gentSuite, a back office for small
businesses that answer calls with an AI receptionist. The model covers three
parts:

- the in-memory store `MemStorage`: eight tables (users, businesses, opening
  hours, FAQs, calls, bookings, integrations, subscriptions), each a map from id
  to row with its own id counter;
- the request handlers that sit on that store:
  - business profile, hours and FAQs;
  - guided setup;
  - bookings and calls;
  - integrations;
  - subscriptions and Stripe checkout;
  - registration, login and password reset;
  - the administrator pages;
  - the user profile;
- the enumerations and column defaults of the shared schema.

The store is a class, `Storage.MemStorage`:

- its tables are `map` fields and its counters `int` fields;
- every store operation is a method with a `modifies` clause;
- bulk reads and deletes walk the table with loops and their invariants.

Each handler is a method over that class that returns a `Reply`: a status code
plus either a body or a message. A handler's contract states three things:

- the reply for every branch of the handler;
- the new state of every table it may write;
- the invariant it keeps.

The invariant is `MemStorage.Consistent()`:

- every row sits under its own id below the counter;
- usernames are unique;
- a user owns at most one business and at most one subscription;
- a business holds at most one integration of each type;
- every business and subscription belongs to a stored user.

The handlers that write the user, business or subscription tables are proved
to keep this invariant. The integration handlers are proved to keep the two
parts that concern them: every row sits under its own id, and a business holds
at most one integration of each type.

A JavaScript `Map` lists its entries in insertion order. Ids are handed out in
increasing order, so that order is ascending key order. `Tables.Rows` lists a
table in that order. `Tables.Filter` and `Tables.Find` are `Array.filter` and
`Array.find` over that list. `Tables.FindSpec` and `Tables.SelectSpec` say what
these return in terms of the map itself.

Parts of the system outside the model enter as parameters:

- the clock (`now`, the first day of the month, the moment 30 days ago);
- bcrypt (`hash`, `compare`);
- the random reset token;
- validators of email addresses and URLs (`isEmail`, `isUrl`);
- what Stripe answers (a new customer id, a portal address);
- the process environment (price ids);
- request headers (`host`, `origin`).

The mail a reset request would send is returned beside the reply.

## Model

| member | source | states |
|---|---|---|
| Schema.ParseRole | shared/schema.ts:6-9 | a role is exactly one of the labels `user` and `admin`; any other text is refused |
| Schema.BusinessTypesListed | shared/schema.ts:28-40 | the business-type enum lists eleven distinct types and every type is among them |
| Schema.ParseBusinessType | shared/schema.ts:28-40 | a business type is exactly one of the eleven labels, read back to the type it names |
| Schema.ParseCallStatus | shared/schema.ts:89-94 | a call status is exactly one of completed, in-progress, missed, transferred |
| Schema.ParseBookingStatus | shared/schema.ts:115-119 | a booking status is exactly one of upcoming, completed, canceled |
| Schema.ParsePlan | shared/schema.ts:153-158 | a plan is exactly one of free, basic, premium, enterprise |
| Schema.UserRow | server/storage.ts:127-139 | a new user carries the id handed out, the creation time, the given credentials, and no reset token or expiry |
| Schema.BusinessRow | server/storage.ts:200-212 | a new business carries the id, owner and name given, both timestamps set to now, and type `other` when none was given |
| Schema.HoursRow | server/storage.ts:237-242 | a new hours row carries the id handed out and keeps the owner, day, times and open flag the insert gives |
| Schema.CallRow | server/storage.ts:307-317 | a new call has no end time and a duration of `0:00` |
| Schema.BookingRow | shared/schema.ts:122-133 | a new booking carries its date, and its status is upcoming when none was given |
| Schema.IntegrationRow | shared/schema.ts:139-147 | a new integration keeps its owner and type, and its status is `inactive` when none was given |
| Schema.SubscriptionRow | shared/schema.ts:160-172 | a new subscription keeps its owner, is on the free plan and `active` when those were not given |
| Schema.MergeUser | server/storage.ts:174-187 | merging a partial user never changes id, username, password, reset fields or creation time; an empty patch changes nothing |
| Schema.MergeBusiness | server/storage.ts:214-228 | merging keeps id, owner and creation time and refreshes `updatedAt`; an empty patch only refreshes `updatedAt` |
| Schema.MergeIntegration | server/storage.ts:393-407 | merging keeps id and creation time, refreshes `updatedAt`, and takes owner and type from the patch when it carries them |
| Schema.MergeSubscription | server/storage.ts:444-458 | merging keeps id and creation time, refreshes `updatedAt`, and takes the owner from the patch when it carries one |
| Schema.MergeBooking | server/storage.ts:349-358 | merging keeps id and creation time and takes the owner from the patch when it carries one |
| Schema.MergeBusinessIdempotent | server/storage.ts:214-228 | applying the same business patch twice gives what applying it once gives |
| Tables.FindSpec | server/storage.ts:115-125 | searching the listing of a table finds the stored matching row with the smallest id, and finds nothing exactly when no stored row matches |
| Tables.SelectSpec | server/storage.ts:231-235 | filtering the listing of a table keeps exactly the stored rows that match, in ascending id order |
| Tables.RowsCount | server/storage.ts:189-191 | the listing of a table holds one row per stored key |
| Tables.FindAfterReplace | server/storage.ts:141-155 | after the found row is overwritten by one with the same id and the same searched field, the search finds the new row |
| Tables.DeleteMatching | server/storage.ts:255-261 | the delete loop over the entries leaves exactly the rows that do not match, unchanged |
| Tables.WithoutLeavesNoMatch | server/storage.ts:288-294 | after a bulk delete by owner, the listing holds no row of that owner |
| Tables.FilterUnchanged | server/storage.ts:231-235 | a filtered listing is the same before and after a change that keeps every matching row and adds none, however far the counter moved |
| Storage.MemStorage.constructor | server/storage.ts:90-108 | the store starts with eight empty tables and every counter at 1 |
| Storage.MemStorage.GetUser | server/storage.ts:111-113 | the user stored under the id, or none exactly when the id is not stored |
| Storage.MemStorage.GetUserByUsername | server/storage.ts:115-119 | the first user in insertion order with that username, which is the stored match with the smallest id; none exactly when no user has that name |
| Storage.MemStorage.GetUserByEmail | server/storage.ts:121-125 | the first user in insertion order with that email; none exactly when no user has it |
| Storage.MemStorage.CreateUser | server/storage.ts:127-139 | the counter's value becomes the fresh id and the counter moves on; the user is appended to the listing; no other row changes; with a free username the store stays consistent |
| Storage.MemStorage.UpdateUserResetToken | server/storage.ts:141-155 | an unknown id fails and changes nothing; otherwise only that user's two reset fields are set |
| Storage.MemStorage.UpdateUserPassword | server/storage.ts:157-172 | an unknown id fails and changes nothing; otherwise that user's password is replaced and both reset fields cleared |
| Storage.MemStorage.UpdateUser | server/storage.ts:174-187 | an unknown id fails and changes nothing; otherwise only that user is replaced by the merge |
| Storage.MemStorage.GetAllUsers | server/storage.ts:189-191 | every stored user once, in insertion order |
| Storage.MemStorage.GetBusinessByUserId | server/storage.ts:194-198 | the user's first business, or none exactly when the user owns none |
| Storage.MemStorage.CreateBusiness | server/storage.ts:200-212 | a fresh id from the counter; only the new row is added; for an existing user without a business the store stays consistent |
| Storage.MemStorage.UpdateBusiness | server/storage.ts:214-228 | an unknown id fails and changes nothing; otherwise only that row is replaced by the merge |
| Storage.MemStorage.GetHoursByBusinessId | server/storage.ts:231-235 | exactly the stored hours rows of the business, in insertion order |
| Storage.MemStorage.CreateHours | server/storage.ts:237-242 | a fresh id from the counter; the row is appended to the listing |
| Storage.MemStorage.UpdateHours | server/storage.ts:244-253 | an unknown id fails and changes nothing; otherwise only that row is merged |
| Storage.MemStorage.DeleteHoursByBusinessId | server/storage.ts:255-261 | removes exactly the business's rows and keeps every other row |
| Storage.MemStorage.GetFaqsByBusinessId | server/storage.ts:264-268 | exactly the stored FAQs of the business, in insertion order |
| Storage.MemStorage.CreateFaq | server/storage.ts:270-275 | a fresh id from the counter; the row is appended to the listing |
| Storage.MemStorage.UpdateFaq | server/storage.ts:277-286 | an unknown id fails and changes nothing; otherwise only that row is merged |
| Storage.MemStorage.DeleteFaqsByBusinessId | server/storage.ts:288-294 | removes exactly the business's FAQs and keeps every other row |
| Storage.MemStorage.GetCallsByBusinessId | server/storage.ts:297-301 | exactly the stored calls of the business, in insertion order |
| Storage.MemStorage.GetCallById | server/storage.ts:303-305 | the call under the id, or none exactly when it is not stored |
| Storage.MemStorage.CreateCall | server/storage.ts:307-317 | a fresh id from the counter; the new call has no end time and duration `0:00` |
| Storage.MemStorage.UpdateCall | server/storage.ts:319-328 | an unknown id fails and changes nothing; otherwise only that call is merged |
| Storage.MemStorage.GetBookingsByBusinessId | server/storage.ts:331-335 | exactly the stored bookings of the business, in insertion order |
| Storage.MemStorage.GetBookingById | server/storage.ts:337-339 | the booking under the id, or none exactly when it is not stored |
| Storage.MemStorage.CreateBooking | server/storage.ts:341-347 | a fresh id from the counter; only the new row is added |
| Storage.MemStorage.UpdateBooking | server/storage.ts:349-358 | an unknown id fails and changes nothing; otherwise only that booking is merged |
| Storage.MemStorage.DeleteBooking | server/storage.ts:360-366 | fails exactly when the id is not stored; removes exactly that key |
| Storage.MemStorage.GetIntegrationsByBusinessId | server/storage.ts:369-373 | exactly the stored integrations of the business, in insertion order |
| Storage.MemStorage.GetIntegrationById | server/storage.ts:375-377 | the integration under the id, or none exactly when it is not stored |
| Storage.MemStorage.CreateIntegration | server/storage.ts:379-391 | a fresh id from the counter; only the new row is added |
| Storage.MemStorage.UpdateIntegration | server/storage.ts:393-407 | an unknown id fails and changes nothing; otherwise only that integration is merged |
| Storage.MemStorage.DeleteIntegration | server/storage.ts:409-415 | fails exactly when the id is not stored; removes exactly that key |
| Storage.MemStorage.GetSubscriptionByUserId | server/storage.ts:418-422 | the user's first subscription, or none exactly when the user holds none |
| Storage.MemStorage.GetSubscriptionByStripeId | server/storage.ts:424-428 | the first subscription with that Stripe subscription id, or none exactly when no subscription carries it |
| Storage.MemStorage.CreateSubscription | server/storage.ts:430-442 | a fresh id from the counter; only the new row is added; for an existing user without a subscription the store stays consistent |
| Storage.MemStorage.UpdateSubscription | server/storage.ts:444-458 | an unknown id fails and changes nothing; otherwise only that row is merged; a patch that names no owner keeps the store consistent |
| Base.SessionUser | server/controllers/business-setup.ts:80-82 | a session user id is present exactly when it is truthy: a missing id and id 0 both count as no session |
| UserViews.Strip | server/controllers/auth.ts:121-122 | the view of a user never has a password; it hides the reset token or its expiry exactly when asked to |
| UserViews.ViewShowsAllButHidden | server/controllers/profile.ts:41 | two users give the same view exactly when they agree on every field the view shows |
| UserViews.ViewIgnoresPassword | server/controllers/admin.ts:18-23 | changing only the password never changes a view |
| WeeklyHours.DefaultWeek | server/controllers/business.ts:130-138 | the default week has exactly the seven day keys; Monday to Friday are open 09:00-17:00, Saturday and Sunday closed with 10:00-15:00 |
| WeeklyHours.DayEntry | server/controllers/business.ts:141-147 | a stored row shows as open exactly when its flag is true; a stored non-empty time is shown as it is; a missing or empty time falls back to the default of an open or a closed day |
| WeeklyHours.FormatHoursAt | server/controllers/business.ts:141-147 | a day is listed when it is one of the seven or a row names it; its entry comes from the last row naming it in lower case, else from the default week |
| WeeklyHours.FormatFullWeek | server/controllers/business.ts:141-147 | with one row per day from Monday to Sunday, exactly the seven days are listed and each shows its own row |
| WeeklyHours.FormatWeek | server/controllers/business.ts:129-147 | the `forEach` that writes each row over the default week computes the formatted week |
| WeeklyHours.ReplaceHours | server/controllers/business.ts:171-188 | after the delete and the loop of creates, the business's hours are exactly the new rows, in order, with consecutive fresh ids and the counter moved past them; every other business keeps each of its rows and gains none, so its hours listing is unchanged |
| WeeklyHours.AppendAllHours | server/controllers/business-setup.ts:176-192 | the create loop appends exactly the new rows to the business's hours and keeps every earlier row |
| Text.ParseNatToString | server/controllers/calls.ts:170-172 | the decimal text of a whole number reads back as that number |
| Text.PadTwoDigits | server/controllers/calls.ts:172 | padding a number below 100 to two digits gives two characters that read back as the number |
| Text.ToLowerOfLower | server/controllers/business.ts:143 | lower-casing text without upper-case letters changes nothing |
| BusinessController.GetBusinessInfo | server/controllers/business.ts:61-76 | 404 exactly when the caller owns no business; otherwise the stored business the caller owns |
| BusinessController.UpdateBusinessInfo | server/controllers/business.ts:79-112 | a body without a name is 400 and writes nothing; a caller without a business gets a new one of their own (201); otherwise their business is merged (200); at most one business per user is kept |
| BusinessController.SaveBusiness | server/controllers/business.ts:85-100 | creates the owner's business exactly when they have none, else merges into it; the store stays consistent |
| BusinessController.GetHoursOfOperation | server/controllers/business.ts:115-154 | 404 without a business; otherwise the formatted week of the business's rows, which always lists all seven days |
| BusinessController.FormatStoredWeek | server/controllers/business.ts:171-188 | the week stored by the update shows exactly the seven days, each as submitted |
| BusinessController.UpdateHoursOfOperation | server/controllers/business.ts:157-225 | a body without seven days is 400 and writes nothing; no business is 404 and writes nothing; otherwise the business's hours become exactly the seven new rows, every other business's hours listing is unchanged, and the reply is their formatted week |
| BusinessController.GetFaqs | server/controllers/business.ts:228-248 | 404 without a business; otherwise exactly the business's stored FAQs |
| BusinessController.ReplaceFaqs | server/controllers/business.ts:268-286 | after the delete and the creates, the business's FAQs are exactly the new ones, in order, and the counter has moved past them; every other business keeps each of its FAQs and gains none, so its FAQ listing is unchanged |
| BusinessController.UpdateFaqs | server/controllers/business.ts:251-298 | 400 exactly when the body is missing or some question or answer is shorter than 5; 400 and 404 write nothing; on success one FAQ per entry, with the entry's text, these are exactly the business's FAQs, and every other business's FAQ listing is unchanged |
| BusinessSetupController.ValidSetupCompletesProfile | server/controllers/business-setup.ts:98-135 | a valid setup leaves a complete profile, whether it creates the business or overwrites it |
| BusinessSetupController.SetupBusinessProfile | server/controllers/business-setup.ts:77-140 | no session is 401; invalid data is 400; otherwise creates the user's business (201) or overwrites every setup column of the existing one (200), never a second business |
| BusinessSetupController.SetupDayInsert | server/controllers/business-setup.ts:180-186 | a closed day is stored without times; an open day stores the submitted times |
| BusinessSetupController.UpdateSetupHours | server/controllers/business-setup.ts:143-199 | no session is 401; a body without seven days is 400; no business is 404; these write nothing; otherwise the reply is the seven created rows, which are then exactly the business's hours, and every other business's hours listing is unchanged |
| BusinessSetupController.CheckBusinessSetupStatus | server/controllers/business-setup.ts:202-239 | no session is 401; no business gives 200 with `isSetupComplete` false and `Business setup not started`; otherwise complete exactly when name, type and description are set and at least seven hours rows exist |
| BusinessSetupController.SetupStepsComplete | server/controllers/business-setup.ts:224-229 | a stored valid setup and its seven hours rows make the setup complete |
| BookingsController.UpdatePatchAsWritten | server/controllers/bookings.ts:123-137 | the update always sends a `date` key, which is undefined when the body has no date |
| BookingsController.UpdateWithoutDateErasesDate | server/controllers/bookings.ts:123-140 | as written, an update without a date erases the booking's stored date |
| BookingsController.UpdateChangesOnlySentFields | server/controllers/bookings.ts:127-140 | the corrected update changes exactly the fields sent and keeps the booking with its business |
| BookingsController.GetBookings | server/controllers/bookings.ts:7-25 | 404 without a business; otherwise exactly the business's bookings |
| BookingsController.GetBookingById | server/controllers/bookings.ts:28-53 | 200 exactly when the booking exists and belongs to the caller's business; any other id is 404 |
| BookingsController.CreateBooking | server/controllers/bookings.ts:56-99 | no business is 404 before the body is checked; a bad body is 400 and writes nothing; otherwise one new booking owned by the caller's business whatever the body says |
| BookingsController.UpdateBooking | server/controllers/bookings.ts:102-155 | corrected: stores only the fields the body sends, so an update without a date keeps the stored date (see Findings); only a booking of the caller's business can change (else 404); a bad body is 400 and writes nothing; the booking stays with the business |
| BookingsController.DeleteBooking | server/controllers/bookings.ts:158-186 | removes exactly the requested booking, and only when it belongs to the caller's business |
| CallsController.GetCalls | server/controllers/calls.ts:16-34 | 404 without a business; otherwise exactly the business's calls |
| CallsController.GetCallById | server/controllers/calls.ts:37-62 | 200 exactly when the call belongs to the caller's business; any other id is 404 |
| CallsController.CallInsert | server/controllers/calls.ts:79-82 | a new call is owned by the caller's business whatever the body names |
| CallsController.CreateCall | server/controllers/calls.ts:65-96 | a bad body is 400; no business is 404; otherwise one new call of the caller's business with no end time and duration `0:00` |
| CallsController.JsRem | server/controllers/calls.ts:171 | the remainder takes the sign of the dividend, as JavaScript's `%` does |
| CallsController.DurationTextOfNat | server/controllers/calls.ts:168-172 | the duration text is whole minutes, a colon, and the remaining seconds in two digits |
| CallsController.DurationReadsBack | server/controllers/calls.ts:168-172 | both numbers of the text read back; the seconds are below 60; minutes times 60 plus seconds is the duration in whole seconds |
| CallsController.TypePatch | server/controllers/calls.ts:161-164 | `update_call_type` writes only the call type |
| CallsController.EndPatch | server/controllers/calls.ts:166-180 | `end_call` writes the end time, the duration, status completed, the transcript and the recording |
| CallsController.EndedCallRecordsDuration | server/controllers/calls.ts:166-180 | an ended call keeps its caller, start and type, is completed at the end time, and records the duration since the start |
| CallsController.N8nWebhook | server/controllers/calls.ts:149-192 | an unknown call is 404; an unknown action 400; only the named call changes, as the action says |
| CallsController.RevenueReadsBack | server/controllers/calls.ts:220 | the revenue text is `$` followed by 150 times the monthly bookings |
| CallsController.GetDashboardStats | server/controllers/calls.ts:195-231 | 404 without a business; otherwise the number of the business's calls, the number of its bookings dated on or after the first of the month, and the revenue text for them |
| IntegrationsController.Display | server/controllers/integrations.ts:80-123 | each of the five known types has its own look; an unknown type is shown under its own name as `Integration` in `bg-gray-100` |
| IntegrationsController.View | server/controllers/integrations.ts:80-123 | the view of an integration keeps its id, type, status and configuration and shows the look of its type |
| IntegrationsController.CatalogueListsKnownTypes | server/controllers/integrations.ts:31-77 | the default list names each known type once, ids 1 to 5, all active, each with its type's look |
| IntegrationsController.CheckConfig | server/controllers/integrations.ts:155-181 | an unknown type is refused; an accepted configuration is an object carrying every required key as a string, and for email an address with `@`; a null configuration throws for every type but email |
| IntegrationsController.CompleteConfigAccepted | server/controllers/integrations.ts:155-181 | a configuration object with every required string, and an `@` for email, is accepted |
| IntegrationsController.CheckedTypesAreDisplayed | server/controllers/integrations.ts:155-181 | the configuration check knows exactly the types the listing has a look for |
| IntegrationsController.TruthyConfigNeverThrows | server/controllers/integrations.ts:276-299 | a configuration the update checks never reaches the property read on null |
| IntegrationsController.ConfigRejection | server/controllers/integrations.ts:179-185 | an unknown type gets `Invalid integration type`, a bad configuration `Invalid integration configuration`, a throw 500 |
| IntegrationsController.UpdatePatchAsWritten | server/controllers/integrations.ts:257-311 | the update stores every key of the body, including an owner and a type |
| IntegrationsController.UpdateAsWrittenBreaksOnePerType | server/controllers/integrations.ts:257-311 | as written, an update can give a business two integrations of one type, and can move an integration to another business |
| IntegrationsController.UpdatePatch | server/controllers/integrations.ts:276-311 | the corrected update writes only the configuration and the status |
| IntegrationsController.UpdateKeepsOnePerType | server/controllers/integrations.ts:276-311 | the corrected update keeps the integration's owner and type, so each business still holds at most one of each type |
| IntegrationsController.HoldsType | server/controllers/integrations.ts:147-149 | the search finds an integration of the type exactly when the business holds one |
| IntegrationsController.GetIntegrations | server/controllers/integrations.ts:17-130 | 404 without a business; the default list when it has no integration; otherwise the view of each of its integrations, in order |
| IntegrationsController.CreateIntegration | server/controllers/integrations.ts:133-249 | a duplicate type is 400; an invalid configuration is refused; otherwise one integration of the caller's business is added; at most one per type is kept |
| IntegrationsController.UpdateIntegration | server/controllers/integrations.ts:252-369 | corrected: stores only the configuration and status, so owner and type stay, where the source also stores a sent owner or type (see Findings); only an integration of the caller's business can change (else 404); a truthy new configuration must pass the stored type's rule |
| IntegrationsController.DeleteIntegration | server/controllers/integrations.ts:372-400 | removes exactly the requested integration, and only when it belongs to the caller's business |
| SubscriptionsController.ClientView | server/controllers/subscriptions.ts:18-27 | cancelling at period end is reported exactly when the status is `active-canceling`; nothing else changes |
| SubscriptionsController.GetCurrentSubscription | server/controllers/subscriptions.ts:9-43 | 404 exactly when the caller holds no subscription; otherwise its client view |
| SubscriptionsController.SubscriptionInsert | server/controllers/subscriptions.ts:61-70 | the new subscription belongs to the caller whatever the body names |
| SubscriptionsController.CreateSubscription | server/controllers/subscriptions.ts:46-77 | a caller who already holds a subscription gets 400; otherwise one new subscription of the caller; one subscription per user is kept |
| SubscriptionsController.UpdateAsWritten | server/controllers/subscriptions.ts:89-105 | as written, the update never answers 403 and writes the raw body over whatever subscription the path id names |
| SubscriptionsController.UpdateAsWrittenReachesOtherUsers | server/controllers/subscriptions.ts:94-105 | as written, a user can rewrite another user's subscription and take it over |
| SubscriptionsController.UpdateSubscription | server/controllers/subscriptions.ts:80-112 | corrected: 400 for a missing id, 404 without a subscription, 403 for any subscription but the caller's own; only the caller's own is merged, and it stays theirs |
| SubscriptionsController.UpdateLeavesOthersAlone | server/controllers/subscriptions.ts:94-105 | the corrected update leaves every other user's subscription unchanged |
| SubscriptionsController.PriceVariablesDistinct | server/controllers/subscriptions.ts:144-157 | each plan and cycle reads a price variable of its own |
| SubscriptionsController.FinalPrice | server/controllers/subscriptions.ts:160-164 | the configured price when set and not empty, otherwise the test price; never empty |
| SubscriptionsController.CreateCheckoutSession | server/controllers/subscriptions.ts:115-205 | 400 for a missing plan or cycle, a plan other than basic, premium or enterprise, or an unknown cycle; 404 for an unknown user; otherwise the price and return addresses; a subscription without a Stripe customer gets the new customer id, and nothing else changes |
| SubscriptionsController.CustomerPatch | server/controllers/subscriptions.ts:187-189 | the write-back sets only the Stripe customer id |
| SubscriptionsController.CreateBillingPortalSession | server/controllers/subscriptions.ts:208-255 | 404 without a subscription or Stripe customer; otherwise Stripe's portal address, or the subscription page with a note when Stripe fails |
| SubscriptionsController.HandleWebhook | server/controllers/subscriptions.ts:258-288 | 400 exactly without a non-empty signature or for a handled event without data; every other event is acknowledged |
| AuthController.RegistrationRows | server/controllers/auth.ts:42-75 | registration stores an ordinary user with the hashed password, a business of that user under the chosen name, and a free, active subscription ending 30 days after it starts |
| AuthController.Register | server/controllers/auth.ts:30-89 | an invalid body is 400; a taken username is 400 and nothing is written; otherwise 201, and exactly the user, business and subscription are added; the store stays consistent |
| AuthController.OpenAccount | server/controllers/auth.ts:45-75 | the three creates of a registration with a free username keep the store consistent |
| AuthController.Login | server/controllers/auth.ts:92-134 | success exactly when the username exists and the password matches; an unknown user and a wrong password get the same 401; success returns the user without the password and signs in that user |
| AuthController.IssuedTokenWindow | server/controllers/auth.ts:200-206 | a fresh token is accepted, and only that token, until one hour after it was issued |
| AuthController.ClearedTokenRejected | server/controllers/auth.ts:253-256 | after a reset no token is accepted at any time |
| AuthController.ForgotPassword | server/controllers/auth.ts:185-228 | the same 200 whether or not the email is known; for a known email the first such account gets the token for one hour and the mail carries it; nothing else changes |
| AuthController.StoreToken | server/controllers/auth.ts:200-206 | storing the token makes exactly that token acceptable for one hour |
| AuthController.ResetPassword | server/controllers/auth.ts:231-270 | succeeds exactly when the account holds that token and its expiry has not passed, else the same 400 with nothing written; success stores the new hash and clears the token, so the token is refused from then on |
| AuthController.StorePassword | server/controllers/auth.ts:253-256 | the new hash is stored and the account then accepts no token |
| AdminController.Entry | server/controllers/admin.ts:14-24 | a listing entry is the user without the password, with a business and subscription of that user |
| AdminController.GetAllUsers | server/controllers/admin.ts:8-31 | one entry per stored user, in insertion order, each a stored user without the password |
| AdminController.ListEntries | server/controllers/admin.ts:14-24 | the loop over the users builds one entry per user, in order |
| AdminController.GetUserDetails | server/controllers/admin.ts:34-84 | 400 for a non-numeric id, 404 for an unknown one; otherwise the user without password and reset token, the user's business and subscription, and the business's hours, FAQs, calls and bookings exactly when a business exists |
| AdminController.UpdateUserRole | server/controllers/admin.ts:87-121 | a role other than `admin` or `user` is 400; an unknown id is 500; otherwise only that user's role changes and the reply omits the password |
| AdminController.Collect | server/controllers/admin.ts:131-146 | at most one business or subscription is collected per user |
| AdminController.CollectBusinesses | server/controllers/admin.ts:131-137 | the loop collects each user's business, when there is one, in user order |
| AdminController.CollectSubscriptions | server/controllers/admin.ts:140-146 | the loop collects each user's subscription, when there is one, in user order |
| AdminController.PlanTallySum | server/controllers/admin.ts:154-166 | the four plan counts add up to the number of subscriptions |
| AdminController.CountPlans | server/controllers/admin.ts:154-166 | the counting loop gives the number of subscriptions of each plan |
| AdminController.TypeCountsSum | server/controllers/admin.ts:168-177 | the counts over all business types add up to the number of businesses that have a type |
| AdminController.CountTypes | server/controllers/admin.ts:168-177 | the counting loop holds, under each type's name, the number of businesses of that type, and nothing for an absent type |
| AdminController.GetAdminDashboardStats | server/controllers/admin.ts:124-201 | user, business and subscription totals, with businesses and subscriptions each at most the users; plan counts summing to the subscriptions; type counts summing to at most the businesses; signups since 30 days ago at most the users |
| ProfileController.ProfileUpdateEffect | server/controllers/profile.ts:38 | a profile update changes exactly the fields sent and never the identity, role, password or reset fields; repeating it changes nothing |
| ProfileController.UpdateProfile | server/controllers/profile.ts:13-48 | no session is 401; invalid data is 400; an unknown user is 404; these write nothing; otherwise only that user is merged and the reply has no password or reset fields |
| ProfileController.GetProfile | server/controllers/profile.ts:50-72 | no session is 401; an unknown user 404; otherwise the user without password and reset fields |

## Left out

- BookingsController.UpdateBooking stores the corrected partial row of the bookings finding below: a body without a date keeps the stored date, whereas the source as written erases it. The as-written behaviour is modelled by BookingsController.UpdatePatchAsWritten and BookingsController.UpdateWithoutDateErasesDate.
- SubscriptionsController.UpdateSubscription stores the corrected update of the subscriptions finding below. It answers 403 for any subscription but the caller's own, and drops a sent `userId`. The source as written never answers 403, and writes the raw body, `userId` included, over whatever subscription the path id names. That behaviour is modelled by SubscriptionsController.UpdateAsWritten and SubscriptionsController.UpdateAsWrittenReachesOtherUsers. The as-written half covers only bodies made of typed subscription fields: the raw body could also overwrite `id` or `createdAt`, or store a plan outside the enum, and the model does not express that.
- IntegrationsController.UpdateIntegration stores the corrected partial row of the integrations finding below: a sent `businessId` or `type` is not stored, whereas the source as written stores both. The as-written behaviour is modelled by IntegrationsController.UpdatePatchAsWritten and IntegrationsController.UpdateAsWrittenBreaksOnePerType.
- WeeklyHours.DayEntry shows a row without an open flag as closed (`isOpen` false). For such a row the source passes `undefined` through, and the JSON reply then has no `isOpen` key for that day.
- Schema.UserRow, Schema.CallRow, Schema.BookingRow, Schema.IntegrationRow and Schema.SubscriptionRow apply the column defaults of shared/schema.ts to a field the insert leaves out. These are the role, the call start time, and the booking, integration and subscription defaults. The in-memory store's spread would leave those fields undefined; the database store fills them.
- Schema.HoursRow stores the open flag as the insert gives it and does not apply the column's `true` default, as the in-memory store does. Both hours handlers always send the flag, so the default is never needed.
- `DatabaseStorage` (server/storage.ts:462-982) is not modelled. It is SQL and ORM calls, and `MemStorage` is taken as the semantics of the storage interface.
- The authentication middleware is not part of this model. A handler receives the caller's id as `callerId`, or the session's id as an `Option`. The `req.user?.id` guards that repeat the middleware's check inside the subscription handlers are not modelled.
- The administrator role check in front of the admin handlers is not part of this model.
- `logout` and `getCurrentUser` (server/controllers/auth.ts:137-162) are not modelled; they are session plumbing.
- `twilioWebhook` (server/controllers/calls.ts:99-146) is not modelled. It reads the store's private tables and emits TwiML.
- The unrouted `stripeWebhook` (server/controllers/integrations.ts:403-445) is not modelled.
- server/controllers/payments.ts and server/services are not part of this model. They are not routed, or are thin wrappers of third-party SDKs.
- Time, bcrypt, the random token, email and URL validation, Stripe answers, the environment and request headers are parameters.
- `Promise.all` fan-outs are modelled as sequential loops. Calls that share one request use one `now`.
- A body that zod cannot parse into the expected shape is `None` and answered with 400. zod's email, URL and date parsing is abstracted; length limits and enum checks are written out.
- String lengths count characters as Dafny does, not as UTF-16 code units. `toLowerCase` is modelled on ASCII letters only.
- AuthController.Register takes only username, password, email and business name from the body. The optional user columns zod would also accept (a role, the reset fields) are not modelled.
- SubscriptionsController.CreateCheckoutSession answers with the request it would send to Stripe's checkout (price and return addresses), not with Stripe's session.
- AuthController.ForgotPassword returns the mail it would send. A failure of the mail service is not modelled.
- CallsController.GetDashboardStats and AdminController.GetAdminDashboardStats take the first day of the month and the moment 30 days ago as parameters instead of computing them from a calendar date.

## Findings

| source | as written | input that shows it | evidently intended | confidence | as-written member | corrected member |
|---|---|---|---|---|---|---|
| server/controllers/subscriptions.ts:94-105 | the ownership test compares the caller's own subscription with the caller, then writes the raw body over the subscription the path id names | user 1 holds subscription 1; user 1 sends `PUT /subscriptions/2` with `{userId: 1, plan: "enterprise"}`; user 2's subscription 2 is rewritten and becomes user 1's | only the caller's own subscription can be changed (403 otherwise), and it cannot be handed to another user | high, not executed | SubscriptionsController.UpdateAsWrittenReachesOtherUsers | SubscriptionsController.UpdateLeavesOthersAlone |
| server/controllers/integrations.ts:257-311 | the update stores every key of the body, including `businessId` and `type` | business 7 holds twilio (1) and n8n (2); an update of 2 with `{type: "twilio"}` leaves business 7 with two twilio integrations; `{businessId: 8}` moves 2 to business 8 | an update changes the configuration and status; the owner and type stay, so a business keeps at most one integration per type | high, not executed | IntegrationsController.UpdateAsWrittenBreaksOnePerType | IntegrationsController.UpdateKeepsOnePerType |
| server/controllers/bookings.ts:123-140 | the update always sends a `date` key, undefined when the body has no date, and the store's spread writes it over the stored date | a stored booking with a date, updated with `{notes: "x"}`, loses its date | an update without a date keeps the stored date | medium, not executed | BookingsController.UpdateWithoutDateErasesDate | BookingsController.UpdateChangesOnlySentFields |
