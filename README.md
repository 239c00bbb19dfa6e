# promasidor_pps_user_app, modelled in Dafny

The application is a Streamlit web app for field agents of a consumer-goods
company. Merchandisers onboard outlets and record orders, price checks,
out-of-stock items and shelf share (MSL/SOS) at an outlet. Builders record
POSM (point-of-sale material) deployments. Admins manage reference data and
view deployments. Every page reads and writes PostgreSQL through one
retrying query runner, `execute_query`.

This project models the decision logic of that app and proves what it does:

- **Query runner** (`database.dfy`, `tenacity.dfy`, `db_utils.dfy`; older
  variant in `testcode.dfy`):
  - one attempt follows the try/except structure of `execute_query`;
  - the pool is a log of acquire/release events, and the user-facing
    errors go into the same log;
  - the `@retry` decorator is a generic retry run with stop, retry-on and
    wait settings;
  - `get_skus_grouped` is modelled as a loop over the fetched rows, and
    `get_locations_by_user_region` as a call in two steps.
- **Field pages**, one module per page (`order.dfy`, `pricing.dfy`,
  `oos.dfy`, `msl_sos.dfy`, `builders_deploy.dfy`, `onboard.dfy`; shared
  pieces in `common.dfy`):
  - each page script is a method on a `Screen` object that records, in
    order, the uploads, inserts, messages and crashes the script causes;
  - the method is proved equal to a function on the page's inputs;
  - lemmas give, over that function, when the database write happens and
    what it carries.
- **Accounts** (`auth.dfy`):
  - signup, login, password reset and logout are steps on a state made of
    the users table (keyed by email), the session user and the messages
    shown;
  - the class `Accounts` runs these steps in place;
  - bcrypt is an oracle that can throw.
- **Admin page** (`admin.dfy`): which setup section a selectbox choice
  opens, the state name-to-id lookup, and the one-line summary written for
  each POSM deployment.

Oracles (parameters of the model):
- the database's response to each attempt;
- the widget values: quantities, check boxes, the selectbox choice, the GPS
  fix and camera images;
- `upload_image`, a function from image and folder to an optional key;
- bcrypt.

## Model

| member | source | states |
|---|---|---|
| Tenacity.InstanceOfAnyMeans | db/db_utils.py:42 | an exception matches retry_if_exception_type exactly when it is an instance of one of the listed classes |
| Tenacity.Backoff | db/db_utils.py:41 | every wait is at least `min`, and at most `max` whenever min <= max |
| Tenacity.BackoffMonotone | db/db_utils.py:41 | the wait after a later attempt is never shorter than the wait after an earlier one |
| Tenacity.Decide | db/db_utils.py:41-42 | another attempt follows only before stop_after_attempt is reached, after exactly the wait_exponential time |
| Tenacity.RunLength | db/db_utils.py:41 | a decorated call stops within stop_after_attempt attempts, with one recorded outcome per attempt and one wait between consecutive attempts |
| Tenacity.RunWaits | db/db_utils.py:41 | the waits slept are the backoff times of the failed attempts, in order |
| Tenacity.RunRetriedBeforeLast | db/db_utils.py:42 | every attempt before the last raised an exception the policy retries |
| Tenacity.RunOutcomesFollow | db/db_utils.py:41-43 | each attempt is a fresh call of the wrapped function: outcome i of the run is that of attempt i |
| Tenacity.RunConcludes | db/db_utils.py:41-42 | the last attempt decides the call: its value is returned, a non-retryable exception propagates, and a retryable one after the final attempt becomes RetryError |
| Tenacity.RunKeeps | db/db_utils.py:41-79 | a property of event logs that every attempt has and that concatenation keeps holds of the whole call's events |
| DbUtils.ExecuteAttempt | db/db_utils.py:44-79 | one attempt returns or raises what the attempt outcome says and appends exactly the attempt's events (acquire, isolation level, commit or rollback, messages, release) to the log |
| DbUtils.RunStatement | db/db_utils.py:49-70 | the inner handlers: the escaping exception is what the statement raised, except a swallowed UniqueViolation, and the events are those of the handler taken |
| DbUtils.Finish | db/db_utils.py:71-79 | the outer OperationalError handler and `finally` append the closing and the plain release of the taken connection |
| DbUtils.SecondReleaseUnkeyed | db/db_utils.py:71-79 | against psycopg2's keyed pool, the `finally` release finds no key exactly when an OperationalError escapes after getconn returned; otherwise the pool ends holding what it held before |
| DbUtils.AttemptReturnsConnection | db/db_utils.py:71-79 | an attempt that takes a connection releases it in `finally`, and also with close=True first when an OperationalError escapes; taken and released connections pair up |
| DbUtils.AttemptTally | db/db_utils.py:44-79 | an attempt that takes connection c acquires it once and releases it once, or twice with one closing release when an OperationalError escapes; an attempt that gets no connection hands back nothing |
| DbUtils.AttemptCommits | db/db_utils.py:52-56 | an attempt commits exactly when the statement ran and fetch is neither 'all' nor 'one', and only its own connection |
| DbUtils.AttemptRollsBack | db/db_utils.py:57-70 | an attempt rolls back exactly when execute or fetch raised |
| DbUtils.AttemptErrorHandling | db/db_utils.py:57-70 | a UniqueViolation returns None and shows "Duplicate entry"; a SerializationFailure or any other exception from execute is re-raised |
| DbUtils.ExecuteQuery | db/db_utils.py:41-79 | the retrying call returns the run's result and slept waits, and the log grows by exactly the run's events |
| DbUtils.ConfigRetriesDatabaseErrors | db/db_utils.py:41-42 | the decorator retries exactly the database errors (OperationalError, SerializationFailure and UniqueViolation among them), not PoolError nor TypeError |
| DbUtils.ConfigSchedule | db/db_utils.py:41 | wait_exponential(multiplier=1, min=1, max=10) sleeps 1, 2, 4 and 8 seconds after the first four failures |
| DbUtils.CallAttempts | db/db_utils.py:41-47 | a call makes 1 to 5 attempts, each with its own outcome, sleeping a prefix of 1, 2, 4, 8 seconds |
| DbUtils.CallRetriesOnlyDatabaseErrors | db/db_utils.py:41-42 | whatever the attempts do, every attempt before the last raised a database error |
| DbUtils.CallConcludes | db/db_utils.py:41-79 | a returned value is the last attempt's; a propagated exception is not a database error; RetryError wraps a database error of the fifth attempt |
| DbUtils.CallReturnsConnections | db/db_utils.py:71-79 | over all attempts, every connection taken from the pool is handed back |
| DbUtils.CallNeverCommitsFetches | db/db_utils.py:52-56 | a fetching call commits on no attempt |
| DbUtils.PersistentDatabaseErrorGivesUp | db/db_utils.py:41-42 | five database errors in a row give waits 1, 2, 4, 8 and RetryError of the fifth error |
| DbUtils.DuplicateIsNotRetried | db/db_utils.py:61-65 | a UniqueViolation on the first attempt ends the call at once with None and the duplicate message |
| DbUtils.NonDatabaseErrorPropagates | db/db_utils.py:41-42 | a first attempt raising a non-database error propagates it unchanged, without retry |
| DbUtils.CallFetchingAll | db/db_utils.py:52-53 | a successful fetch='all' call yields a list of rows, or None after a swallowed duplicate |
| DbUtils.CallFetchingOne | db/db_utils.py:54-55 | a successful fetch='one' call yields one row or None |
| DbUtils.GroupByCategory | db/db_utils.py:203-209 | the loop builds exactly the grouping of the rows |
| DbUtils.GroupedKeys | db/db_utils.py:203-209 | the dict's keys, in insertion order, are the rows' categories in first-seen order |
| DbUtils.FirstSeenMembers | db/db_utils.py:205-207 | a category is a key exactly when some row has it |
| DbUtils.FirstSeenDistinct | db/db_utils.py:206-207 | no category is a key twice |
| DbUtils.GroupedCategories | db/db_utils.py:203-209 | the keys are exactly the distinct categories seen |
| DbUtils.GroupedRows | db/db_utils.py:204-208 | each key holds exactly the rows of its category, in query order |
| DbUtils.GroupedKeepsEveryRow | db/db_utils.py:203-209 | the lists together hold every row exactly once, as a multiset |
| DbUtils.GroupedStep | db/db_utils.py:205-208 | one more row keeps every key holding a list and adds exactly that row to the lists |
| DbUtils.GetSkusGrouped | db/db_utils.py:201-209 | a list of rows is grouped; None (a swallowed duplicate) makes the loop raise TypeError; exceptions of execute_query propagate |
| DbUtils.GetLocationsByUserRegion | db/db_utils.py:85-95 | with no row or no region the result is [] and no second query is issued; otherwise the second query's result is returned |
| Testcode.ExecuteAttempt | testcode.py:27-57 | one attempt of the older runner returns or raises what its outcome says and appends exactly its events |
| Testcode.RunStatement | testcode.py:31-42 | the `with` block: the escaping exception is what execute raised, a normal exit returns the fetched value or commits, and the events are exactly those of the block |
| Testcode.Finish | testcode.py:43-57 | the outer handlers and `finally`: close=True release on OperationalError, rollback on any other exception, a plain release always |
| Testcode.SecondReleaseUnkeyed | testcode.py:43-57 | against psycopg2's keyed pool, the `finally` release finds no key exactly when an OperationalError escapes after getconn returned; otherwise the pool ends holding what it held before |
| Testcode.AttemptReturnsConnection | testcode.py:43-48 | a taken connection is always released in `finally`, and first with close=True when an OperationalError escapes |
| Testcode.AttemptTally | testcode.py:30-57 | an attempt that takes connection c acquires it once and releases it once, or twice with one closing release when an OperationalError escapes; a failed getconn hands back nothing |
| Testcode.AttemptCommits | testcode.py:38-42 | commit exactly when the statement ran and fetch is neither 'all' nor 'one' |
| Testcode.AttemptRollsBack | testcode.py:49-54 | rollback exactly when an exception other than an OperationalError escapes after the connection was taken |
| Testcode.TypeErrorIsReported | testcode.py:34-37 | a TypeError from execute is reported twice, rolled back, re-raised, and the connection is released |
| Testcode.ExecuteQuery | testcode.py:25-57 | the retrying call returns the run's result and waits, and logs exactly the run's events |
| Testcode.TestConfigRetriesOperationalErrors | testcode.py:25 | the decorator retries exactly the OperationalErrors |
| Testcode.CallAttempts | testcode.py:25 | 1 to 3 attempts, sleeping a prefix of 1, 2 seconds |
| Testcode.CallWaits | testcode.py:25 | a call makes 1 to 3 attempts and sleeps the first attempts-1 of 1, 2 seconds |
| Testcode.CallOutcomes | testcode.py:25-57 | a call records one outcome per attempt, and outcome i is what attempt i would give on its own |
| Testcode.CallRetriesOnlyOperationalErrors | testcode.py:25 | whatever the attempts do, every attempt before the last raised an OperationalError |
| Testcode.CallConcludes | testcode.py:25-57 | the last attempt decides; RetryError only after a third OperationalError |
| Testcode.TypeErrorIsNotRetried | testcode.py:34-37 | a TypeError ends the call after one attempt |
| Testcode.DuplicatePropagates | testcode.py:49-54 | a UniqueViolation is rolled back and raised, without retry |
| Testcode.PersistentOperationalErrorGivesUp | testcode.py:25 | three OperationalErrors give waits 1, 2 and RetryError |
| Testcode.CallReturnsConnections | testcode.py:43-57 | every connection taken over all attempts is handed back |
| Testcode.CollectDeployed | testcode.py:77-89 | the loop builds exactly the entries of the selected POSMs with a quantity above 0 |
| Testcode.DeployedAppend | testcode.py:80-89 | the entries of two selections in a row are the entries of each, concatenated |
| Testcode.DeployedKeepsPositive | testcode.py:88-89 | each selected POSM adds its entry, in selection order, exactly when its quantity is above 0 |
| Testcode.DeployPage | testcode.py:66-112 | the page's effects are those of DeployPageEffects: KeyError when the choice is no outlet label, else the GPS notice and the deploy gate |
| Testcode.Deploy | testcode.py:94-112 | the GPS notice and the deploy button give exactly the effects of DeployEffects |
| Testcode.PressButton | testcode.py:102-112 | the button appends exactly the effects of ButtonEffects: two uploads, then the insert and success or the upload error, only with button, fix, both images and a non-empty list; otherwise at most the quantities warning |
| Testcode.DeployCommitsIff | testcode.py:102-109 | the deployment is inserted exactly when button, GPS, both images and a non-empty list are present and both uploads return a key; the record carries those keys |
| Forms.GpsNotice | views/merchandiser_pricing.py:38-44 | the "Waiting for GPS location..." warning appears exactly when there is no fix, and it writes nothing |
| Forms.LabelMapLastWins | views/builders_deploy.py:51-54 | a dict comprehension offers exactly the labels of its pairs and maps each to the value of its last pair |
| Forms.DuplicateLabelKeepsLast | views/builders_deploy.py:51-54 | of two pairs with one label, the second wins |
| Forms.OutletIdsKeepLast | views/builders_deploy.py:51-54 | every outlet's label is offered, and a label no later outlet repeats selects that outlet's id |
| Forms.NatToString | views/merchandiser_msl_sos.py:39 | str(n) is a non-empty string of decimal digits, one digit exactly when n < 10 |
| Forms.NatToStringInjective | views/merchandiser_msl_sos.py:39 | distinct SKU ids give distinct str(id) keys |
| Forms.JoinLength | views/admin.py:181 | `sep.join(parts)` is as long as the parts plus one separator between each two |
| Forms.JoinSnoc | views/admin.py:181 | joining one more part appends the separator and that part |
| Order.CollectOrder | views/merchandiser_order.py:37-43 | the nested loop builds exactly the order lines of the visited SKUs and leaves `quantity` at the last SKU's quantity |
| Order.LinesAppend | views/merchandiser_order.py:38-43 | the lines of two runs of SKUs are the lines of each, concatenated |
| Order.LinesMembers | views/merchandiser_order.py:42-43 | a line (id, q) is present exactly when a visited SKU has that id and quantity q > 0 |
| Order.LinesNeedAQuantity | views/merchandiser_order.py:40-43 | whenever there is a line, some SKU was visited, so `quantity` is defined |
| Order.TrailingZeroBlocks | views/merchandiser_order.py:54 | a last SKU with quantity 0 blocks the order, whatever the others hold |
| Order.OrderPage | views/merchandiser_order.py:9-56 | the page's effects are those of OrderEffects: GPS notice, the no-outlet stop, then the submit gate |
| Order.NoOutletsNoOrder | views/merchandiser_order.py:31-35 | with no outlets nothing is written |
| Order.OrderCommitsIff | views/merchandiser_order.py:54-55 | the order is written exactly when there are outlets and the guard as written holds; it carries the lines, the chosen outlet's id and the chosen label |
| Order.TrailingZeroBlocksOrder | views/merchandiser_order.py:54 | an order of 3 for the first SKU and 0 for the last has one line, yet the pressed button writes nothing |
| Order.IntendedOrderCommitsIff | views/merchandiser_order.py:54 | with the intended guard, an order is written exactly when there are outlets, the button was pressed with a fix, and some SKU has quantity above 0 |
| Pricing.CollectPrices | views/merchandiser_pricing.py:29-35 | the nested loop builds exactly the price entries of the visited SKUs |
| Pricing.PricesAppend | views/merchandiser_pricing.py:30-35 | the entries of two runs of SKUs are the entries of each, concatenated |
| Pricing.PricesMembers | views/merchandiser_pricing.py:34-35 | an entry (id, p) is present exactly when a visited SKU has that id and price p > 0 |
| Pricing.PricingPage | views/merchandiser_pricing.py:10-48 | the page's effects are those of PricingEffects |
| Pricing.PricingCommitsIff | views/merchandiser_pricing.py:23-27 | the check is written exactly when there are outlets and the button was pressed with a fix; it carries the entries, the outlet id and the chosen label |
| Pricing.EmptyPricesAreSubmitted | views/merchandiser_pricing.py:46-47 | with every price left at 0, a check with no entries is written |
| Oos.CollectOos | views/merchandiser_oos.py:29-35 | the nested loop builds exactly the entries of the ticked SKUs |
| Oos.EntriesAppend | views/merchandiser_oos.py:30-35 | the entries of two runs of SKUs are the entries of each, concatenated |
| Oos.EntriesOnePerTicked | views/merchandiser_oos.py:29-35 | one entry per ticked SKU, in visiting order, holding that SKU's name in `sku_id` |
| Oos.EntriesMembers | views/merchandiser_oos.py:35 | an entry names a SKU exactly when a ticked SKU has that name, and every reason is None |
| Oos.OosPage | views/merchandiser_oos.py:9-47 | the page's effects are those of OosEffects |
| Oos.OosCommitsIff | views/merchandiser_oos.py:45-46 | intended: as written, the five-argument add_oos_track call raises TypeError (see Left out); with the call made as meant, the track is written exactly when there are outlets and the button was pressed with a fix, even with nothing ticked; it carries the entries and the outlet id |
| MslSos.CollectSos | views/merchandiser_msl_sos.py:31-45 | the nested loops build exactly sos_data, and msl_count is its number of keys |
| MslSos.MslCountIsTwo | views/merchandiser_msl_sos.py:31 | sos_data has exactly the keys `your_skus` and `competitor_facings`, so msl_count is 2 |
| MslSos.YourSkusMeans | views/merchandiser_msl_sos.py:36-39 | `your_skus[str(id)]` exists exactly when a visited SKU has that id and facings above 0, and then holds those facings; every key is some visited SKU's str(id) |
| MslSos.CompetitorMeans | views/merchandiser_msl_sos.py:41-43 | a category is under `competitor_facings` exactly when it was visited with competitor facings above 0, and then holds them |
| MslSos.MslSosPage | views/merchandiser_msl_sos.py:11-63 | the page's effects are those of MslSosEffects |
| MslSos.PressButton | views/merchandiser_msl_sos.py:53-63 | intended, as for MslSosCommitsIff: the track button appends exactly the effects of ButtonEffects: upload, then the insert and success or the upload error, only with button, fix and image |
| MslSos.MslSosCommitsIff | views/merchandiser_msl_sos.py:57-63 | intended: as written, the seven-argument add_msl_sos_track call raises TypeError after the upload (see Left out); with the call made as meant, the track is written exactly when there are outlets, button, fix and image are present, and the upload returns a key; msl_count is 2; otherwise "Image Not Uploaded" exactly when the upload failed |
| BuildersDeploy.CollectDeployed | views/builders_deploy.py:82-96 | the loop builds exactly the entries of the POSMs with quantity 1, and shows one warning per POSM above 1 |
| BuildersDeploy.KeptAppend | views/builders_deploy.py:85-96 | entries and warnings of two selections in a row are each concatenated |
| BuildersDeploy.KeptSplit | views/builders_deploy.py:93-96 | each selected POSM adds an entry with quantity 1 exactly when its quantity is 1, and a warning exactly when it is above 1; 0 adds neither |
| BuildersDeploy.KeptAreSingles | views/builders_deploy.py:85-96 | every entry has quantity 1 and is the id of a selected POSM whose quantity was 1 |
| BuildersDeploy.DeployPage | views/builders_deploy.py:43-120 | the page's effects are those of DeployPageEffects |
| BuildersDeploy.Deploy | views/builders_deploy.py:101-120 | the GPS notice and deploy button give exactly the effects of DeployEffects |
| BuildersDeploy.PressButton | views/builders_deploy.py:110-120 | intended, as for DeployCommitsIff: the button appends exactly the effects of ButtonEffects: two uploads, then the insert and success or the upload error; otherwise at most the quantities warning |
| BuildersDeploy.NoOutletsCrash | views/builders_deploy.py:51-56 | with no outlets the page ends in KeyError and does nothing else |
| BuildersDeploy.DeployCommitsIff | views/builders_deploy.py:110-120 | intended: as written, `upload_image` rejects the GPS keywords with TypeError (see Left out); with the uploads made as meant, both uploads happen first, exactly when button, fix and both images are present (an empty list too); the insert happens exactly when both keys exist and carries them; the quantities warning appears exactly when the guard fails with an empty list and a non-empty selection |
| BuildersDeploy.DeployUploadsIff | views/builders_deploy.py:110-113 | intended, as for DeployCommitsIff: the two uploads happen exactly when button, fix and both images are present, and then come first |
| BuildersDeploy.DeployInsertsIff | views/builders_deploy.py:114-118 | intended, as for DeployCommitsIff: the insert happens exactly when both uploads return a key, and its record carries the outlet, user, list, both keys and the fix |
| BuildersDeploy.DeployWarnsIff | views/builders_deploy.py:110-120 | the quantities warning appears exactly when the button gate is not met, the list is empty and some POSM was selected |
| Onboard.LocationIdsKeepLast | views/merchandiser_onboard.py:31-34 | every location's "state - name" label is offered, and a label no later location repeats selects that location's id |
| Onboard.LocationIdsOffered | views/merchandiser_onboard.py:31-34 | every offered label is some location's label |
| Onboard.LocationLabelsCollide | views/merchandiser_onboard.py:32 | two different locations can share a label, and then only the second can be picked |
| Onboard.OnboardPage | views/merchandiser_onboard.py:30-57 | the page's effects are those of OnboardEffects |
| Onboard.SubmitCommitsIff | views/merchandiser_onboard.py:47-57 | intended: as written, the thirteen-argument add_outlet call raises TypeError after the upload (see Left out); with the call made as meant, the upload comes first, exactly on submit with fix and image; the outlet is added exactly when the upload returns a key, even when the phone is taken; the record carries key, phone and location; success follows the insert; the phone warning appears exactly when the phone is taken and the outlet is added, before the insert |
| Admin.OpenedMeans | views/admin.py:18-183 | a section is opened exactly when one of its `if selection == ...` branches tests the selection |
| Admin.OpenedNone | views/admin.py:18-183 | a selection no branch tests opens nothing |
| Admin.OpenedUnique | views/admin.py:18-183 | a selection exactly one branch tests opens exactly that branch's section |
| Admin.LocationByRegionUnreachable | views/admin.py:17 | no selection offered opens the location-by-region section; choosing "Location By Region" opens nothing |
| Admin.IntendedDispatchOpensEach | views/admin.py:16-17 | with each branch testing its option's own spelling, every option opens exactly its own section, and anything else opens nothing |
| Admin.StateIdsKeepLast | views/admin.py:65-68 | every state's name is offered, and a name no later state repeats selects that state's id |
| Admin.NameOfPosms | views/admin.py:173-177 | an id some POSM row has is shown with the name of the last row having it |
| Admin.NameOfUnknown | views/admin.py:173-177 | an id no POSM row has is shown as "Unknown" |
| Admin.RenderDeployments | views/admin.py:173-181 | the nested loop writes exactly the summaries of the deployments, one per deployment |
| Admin.RenderDetails | views/admin.py:176-179 | the inner loop builds exactly one detail per deployed POSM, in stored order |
| Admin.DetailsOnePerPosm | views/admin.py:176-179 | one detail per deployed POSM, in stored order |
| Admin.DetailNamesThePosm | views/admin.py:177-179 | each detail is the POSM's name (or "Unknown"), ": " and its quantity |
| Admin.SummaryPosmsLength | views/admin.py:181 | the POSMs part is as long as the details plus one ", " between each two |
| Admin.SummaryAddsDetail | views/admin.py:180-181 | one more POSM adds ", " and its detail to the POSMs part of the line |
| Admin.SummariesInOrder | views/admin.py:174-181 | line k is the summary of deployment k |
| Auth.VerifyPassword | utils/auth.py:25-40 | true exactly when a hash is stored and bcrypt accepts the password; never raises; at most one message |
| Auth.AddUserIdempotent | db/db_utils.py:105-109 | a second add_user with the same email changes nothing, whatever its other values; the table gains at most that email and no other row changes |
| Auth.SignupOutcomes | utils/auth.py:50-58 | signup succeeds exactly for a new email whose password hashes; a taken email or a failed hash adds nobody; success adds exactly the new active account with bcrypt's hash; the session is untouched |
| Auth.SignupSwapsRoleAndRegion | utils/auth.py:57 | as written, the stored role is the region given and the stored region is the role given |
| Auth.SignupSwapExample | utils/auth.py:57 | signing up for region "Lagos" stores the role "Lagos", not "merchandiser" |
| Auth.SignupFormStoresRole | components/common.py:17 | the sign-up form passes its role in the region slot, so the account gets that role and the region "merchandiser" |
| Auth.IntendedSignupKeepsRoleAndRegion | db/db_utils.py:105 | with add_user's own argument order, the account gets the role and region it was signed up with, all else unchanged |
| Auth.LoginOutcomes | utils/auth.py:60-67 | login succeeds exactly for an existing, active account whose stored hash bcrypt accepts, and then the session holds it; otherwise the session is unchanged and the login error is shown last; the table never changes |
| Auth.DisabledCannotLogin | utils/auth.py:63 | a disabled account cannot log in with any password |
| Auth.ResetOutcomes | utils/auth.py:69-75 | an unknown email changes nothing; a known one gets whatever hash_password returned, None included, and no other account changes |
| Auth.FailedResetLocksOut | utils/auth.py:72-73 | a reset whose hashing failed stores None, and then no password logs that account in |
| Auth.SignupThenLogin | utils/auth.py:50-67 | a successful signup followed by a login with the same password logs the new account in |
| Auth.LogoutIdempotent | utils/auth.py:77-79 | logout empties the session, keeps the rest, and doing it twice is doing it once |
| Auth.Accounts.Signup | utils/auth.py:50-58 | the in-place signup returns and leaves what SignupStep gives |
| Auth.Accounts.Login | utils/auth.py:60-67 | the in-place login returns and leaves what LoginStep gives |
| Auth.Accounts.ResetPassword | utils/auth.py:69-75 | the in-place reset returns and leaves what ResetStep gives |
| Auth.Accounts.Logout | utils/auth.py:77-79 | the in-place logout leaves what LogoutStep gives |

## Left out

- Streamlit rendering is not modelled: page layout, subheaders, expanders, the "GPS Captured" info boxes and dataframes. Pages are reduced to the messages, uploads, inserts and crashes they cause.
- Order.OrderPage, Pricing.PricingPage, Oos.OosPage, MslSos.MslSosPage, BuildersDeploy.Deploy, Onboard.OnboardPage and Testcode.Deploy take every add_* call and every outlet, SKU and location query of the page to return normally. The pages therefore do not capture three things. A swallowed UniqueViolation shows "Submission failed: Duplicate entry detected." (db/db_utils.py:61-65) and the page's success message still follows. A persistent database error ends the page with RetryError before its success message. These calls go through execute_query, whose outcomes DbUtils models on their own. The messages `upload_image` shows itself, such as "Failed to upload image: …" (utils/spaces.py:45), are not recorded either: only its optional key is modelled.
- app.py navigation and the login and reset forms of components/common.py are not modelled. Only the role argument of `signup_form` is modelled (Auth.SignupFormStep).
- `st.cache_resource` and `st.cache_data` are library caching and are not modelled.
- The pool's sizing (minconn, maxconn) and concurrency are library behaviour and are not modelled. Connections get fresh numbers on each acquisition, and the pool is a log of acquire and release events.
- SQL semantics are not modelled (joins, `ON CONFLICT`, serializable isolation). The database is an oracle that answers each attempt.
- Commits fail inside the database and are folded into `ExecuteFails`, as are fetch failures.
- The double `putconn` on the OperationalError path (db/db_utils.py:71-79, testcode.py:43-57) is logged as written: one release with close=True, then one in `finally`, with the OperationalError kept as the exception in flight. psycopg2's pool drops a connection's key on the first release, so the second raises PoolError("trying to put unkeyed connection"), which replaces the OperationalError. DbUtils.SecondReleaseUnkeyed and Testcode.SecondReleaseUnkeyed replay an attempt's log on that keyed pool (Database.Lent) and show the unkeyed release happens exactly when an OperationalError escapes after `getconn` returned. PoolError is retried by neither decorator, so in the program such a call ends at once with PoolError. The model does not let the PoolError escape. The conclusions about retries and RetryError therefore describe the program only for errors raised before a connection is held, that is by `getconn`. This applies to DbUtils.ExecuteAttempt, DbUtils.CallConcludes, DbUtils.PersistentDatabaseErrorGivesUp, Testcode.ExecuteAttempt, Testcode.CallConcludes and Testcode.PersistentOperationalErrorGivesUp.
- Tenacity.Backoff: tenacity's exact formula, clamp(multiplier * 2^(n-1), min, max), and its RetryError wrapping of the last retryable error are tenacity's documented behaviour. The app's source does not state them.
- The image pipeline of utils/spaces.py (PIL resize, JPEG conversion, boto3 `put_object`) is not modelled. `upload_image` is an oracle from image and folder to an optional key.
- bcrypt hashing and verification are foreign calls. They are oracles that can return or throw.
- GPS values are optional fixes. Float truthiness, where a latitude of 0.0 counts as missing, is not modelled.
- The sidebar outlet image of views/builders_deploy.py:57-74 is not modelled. As written it never reaches its HTTP fetch: the outlets query (views/builders_deploy.py:43-50) selects no `outlet_image_key`, so line 59 raises KeyError. The `except` then shows "Error loading outlet image." in the sidebar on every run that has an outlet.
- The draft queue exists only as comments (views/builders_deploy.py:15-40) and is not modelled.
- The admin add/disable forms are not modelled (add_region, add_state, add_location, add_sku, add_posm, disable_user). Each is a single `execute_query` write, whose behaviour DbUtils already models.
- In onboard, region_dict is built but never read, so it is not modelled.
- Onboard.OnboardPage: views/merchandiser_onboard.py:30 queries the table `state`, while the other queries of that table (views/admin.py:52, 65, 90) use `states`, and the result is never read. The model takes that query to return. If no such table exists, the statement raises a ProgrammingError, which is a database error. execute_query then retries it until RetryError ends the page before the form.
- Auth.Accounts.Signup: the users table is keyed by email, and user ids are not modelled.
- Auth.Accounts.Signup: a failing `execute_query` inside signup, login or reset is not modelled. Database failures are modelled in DbUtils.
- Auth.AddUser: a new account is taken to be active, which is the table's default and is not stated in the source.
- Four page calls pass the wrong number of arguments and would raise TypeError in Python. Python's call mechanics are not modelled: each page's record holds the values the page passes.
  - MslSos.MslSosPage: views/merchandiser_msl_sos.py:60 passes 7 arguments to the 8-parameter add_msl_sos_track (db/db_utils.py:153), so there is no outlet_info.
  - Oos.OosPage: views/merchandiser_oos.py:46 passes 5 arguments where add_oos_track (db/db_utils.py:160) takes 6, so there is no outlet_info.
  - Onboard.OnboardPage: views/merchandiser_onboard.py:52-53 passes 13 arguments where add_outlet (db/db_utils.py:136-137) takes 17.
  - BuildersDeploy.Deploy: views/builders_deploy.py:111-112 passes GPS keywords to `upload_image`, which takes only an image and a folder (utils/spaces.py:22). The upload is modelled by its image and folder.
- psycopg2's SerializationFailure is an OperationalError, so both decorators' retry predicates match it (DbUtils.ConfigRetriesDatabaseErrors, Testcode.TestConfigRetriesOperationalErrors). Raised by `cur.execute`, it reaches the outer OperationalError handler with a connection held. The second `putconn` then raises PoolError in its place, as the line on the double `putconn` above says, so the program does not retry it.
- In testcode.py a TypeError is taken to come from `cur.execute`, where the code catches it.

## Findings

| source | as written | input that shows it | evidently intended | confidence | as-written member | corrected member |
|---|---|---|---|---|---|---|
| utils/auth.py:57 | `signup` passes (merchandiser_region, role) to add_user, whose parameters are (role, merchandiser_region) (db/db_utils.py:105) | signup with region "Lagos" and role "merchandiser" stores role "Lagos" | the account stores the role and region it was signed up with | high, not executed | Auth.SignupSwapsRoleAndRegion, Auth.SignupSwapExample | Auth.IntendedSignupKeepsRoleAndRegion |
| views/merchandiser_order.py:54 | the submit guard also tests `quantity`, the loop variable left from the last SKU of the form | two SKUs with quantities 3 and 0: one order line, yet nothing is written | submit with a fix and at least one order line | high, not executed | Order.TrailingZeroBlocksOrder | Order.IntendedOrderCommitsIff |
| views/admin.py:85 | the branch tests "Location By Reion" while the selectbox offers "Location By Region" (views/admin.py:17) | choosing "Location By Region" opens no section | that choice opens the location-by-region section | high, not executed | Admin.LocationByRegionUnreachable | Admin.IntendedDispatchOpensEach |
