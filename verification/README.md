# RetainSure console core in Dafny

RetainSure is an Angular console for insurance retention. Administrators use it to watch customers at risk of not renewing, to run retention campaigns, to send renewal reminders, and to read analytics. Customers use it to see their own policies.

This project models the deterministic core of the console as pure Dafny functions over immutable datatypes, and proves properties about them. The core has three parts.

- **Session and authorization.**
  - `AuthService`: a session slot with a hard-coded user table and browser-only persistence.
  - `RoleGuard` and `LoggedOutGuard`.
  - `TokenService`, with its claim reading and fail-closed expiry check on the JSON Web Token `exp` claim (section 4.1.4 of RFC 7519).
  - The HTTP interceptor. It attaches an `Authorization: Bearer` credential (section 2.1 of RFC 6750) and clears the token on a 401.
  - The login page's routing by role.
- **In-memory stores.**
  - The `Campaigns` store: insert at head, update and delete by id, and `C-NNN` id generation.
  - The risk record store, with its flag toggle and level filter.
  - The policy catalogue, split by policy type.
  - `MockDataService`'s lookups, joins, `percent` helper and summary figures.
- **List transforms in views and services.**
  - The risk table's filters and two-key sort.
  - The dashboard's filters plus first eight rows.
  - The ten highest-risk customers.
  - The policy list's search plus newest-first sort.
  - The analytics projection.
  - Reminder mapping between the backend and the console.
  - The bulk-reminder eligibility filter.
  - Avatar initials.
  - The campaign editor's edit and expansion state.

Each operation is a function from the old state to the new one. rxjs observables become the value they carry, or `Errored` when the source would throw inside the stream. The clock, date parsing and `JSON.parse` are function parameters.

Modules:
- Shared helpers:
  - `Wrappers` (`Option`).
  - `Seqs`: filter, find, map, take, and a stable sort over a total preorder.
  - `Text`: ASCII case mapping, trimming, `includes`, decimal digits, and JavaScript `Number` on decimal text.
- `Kinds`: the shared enumerations.
- One module per source component:
  - `Auth`, `Guards`, `Tokens`, `Interceptor`, `LoginView`.
  - `Campaigns`, `CampaignEditor`.
  - `RiskStore`, `RiskView`.
  - `Dashboard`, `MockData`.
  - `PolicyStore`, `PolicyList`.
  - `Engagement`, `EngageView`.
  - `Analytics`, `Navbar`.

The behaviour follows the code, including where it departs from the product description:
- Login checks a hard-coded user table in `AuthService` and never consults `TokenService` or a backend. The two session notions stay independent here, as they are in the code.
- A `roles` list that is present but empty is truthy in JavaScript, so `RoleGuard` denies everyone on such a route.
- An empty stored token is falsy, so it counts as no token.

Design observations the proofs make explicit:
- `detailsbutton(i)` pressed twice is not an involution when another row was expanded. The row ends closed (`CampaignEditor.DetailsButtonTwice`).
- The engagement page merges the risk feed with `Map.set`, so the last row of a customer wins. `listRiskDashboard` sorts the feed highest score first. A customer's merged score is therefore their lowest one (`EngageView.MergeKeepsLowestScore`).
- The settings-page test is a prefix test. Any URL that extends `/customer/settings` counts, for example `/customer/settingsX` (`Navbar.SettingsPrefixCounts`).
- `getAnalyticsSummary` counts expired policies in both the numerator and the denominator of the churn rate. That rate can never exceed 50 (`MockData.GetSummaryFigures`).
- Tokens whose payload segment uses the URL-safe Base64 characters `-` or `_` never decode under `atob`. They read as expired and carry no role or email (`Tokens.UrlSafePayloadFailsClosed`).

## Model

| member | source | states |
|---|---|---|
| Auth.Login | src/app/core/auth/auth.service.ts:51-58 | The user returned is the first table entry matching both email and password; it becomes current and is persisted; with no match (exactly when no entry matches) the session is unchanged |
| Auth.Logout | src/app/core/auth/auth.service.ts:60-63 | No current user afterwards, and the stored copy is removed in a browser only |
| Auth.LogoutIdempotent | src/app/core/auth/auth.service.ts:60-63 | Logging out twice leaves the same state as once |
| Auth.HasRole | src/app/core/auth/auth.service.ts:73-76 | A role match implies being logged in; an empty role list matches nobody |
| Auth.HasEveryRoleIsLoggedIn | src/app/core/auth/auth.service.ts:69-76 | `hasRole` over both roles coincides with `isLoggedIn` |
| Auth.UpdateProfile | src/app/core/auth/auth.service.ts:78-84 | Logged out it changes nothing; otherwise only name and email change, as the patch says, role and password stay, and the result is persisted |
| Auth.SetUser | src/app/core/auth/auth.service.ts:86-93 | The given user becomes current and is persisted; `null` is exactly a logout |
| Auth.ReadStoredUser | src/app/core/auth/auth.service.ts:96-105 | A user is read exactly when in a browser the key holds a user; unparseable text is removed; the current user is untouched |
| Auth.Persist | src/app/core/auth/auth.service.ts:107-116 | Storage is written in a browser only; the current user is untouched |
| Auth.ClearStored | src/app/core/auth/auth.service.ts:118-127 | Storage is cleared in a browser only; the current user is untouched |
| Auth.Init | src/app/core/auth/auth.service.ts:39-48 | Outside a browser the service starts logged out; in a browser a stored user is restored, and a restored user is always the stored one |
| Auth.ServerNeverPersists | src/app/core/auth/auth.service.ts:96-127 | Outside a browser login, logout, profile update and setUser leave storage untouched |
| Auth.LoginSurvivesReload | src/app/core/auth/auth.service.ts:39-58 | After a successful browser login, constructing the service over the storage left behind restores the same user |
| Auth.LogoutSurvivesReload | src/app/core/auth/auth.service.ts:39-63 | After logout a reload restores nobody |
| Guards.RoleGuard | src/app/core/auth/role.guard.ts:21-39 | Allows exactly a logged-in user whose role is listed (or any logged-in user without a list); redirects to `/` with `returnUrl`, adding `denied=role` for a logged-in user |
| Guards.RoleGuardAgreesWithService | src/app/core/auth/role.guard.ts:21-39 | The guard allows exactly when `hasRole(roles)` holds, or `isLoggedIn()` without roles |
| Guards.LoggedOutGuard | src/app/core/auth/logged-out.guard.ts:11-25 | Allows exactly the logged-out; a logged-in user is sent, without query, to the admin or customer dashboard by role |
| Guards.LoggedOutGuardSendsHome | src/app/core/auth/logged-out.guard.ts:19-24 | A logged-in user is sent to the home page of their role |
| Tokens.MapApiRoleToUi | src/app/core/auth/token.service.ts:9-13 | `ROLE_ADMIN` maps to admin and `ROLE_CUSTOMER` to customer, and nothing else maps to either |
| Tokens.Save | src/app/core/auth/token.service.ts:35-39 | Without storage nothing changes |
| Tokens.Get | src/app/core/auth/token.service.ts:41-48 | Without storage there is no token |
| Tokens.Clear | src/app/core/auth/token.service.ts:50-54 | Without storage nothing changes |
| Tokens.SaveGetRoundTrip | src/app/core/auth/token.service.ts:35-54 | With storage, `get` reads back what `save` wrote, and nothing after `clear` |
| Tokens.SecondSegment | src/app/core/auth/token.service.ts:60 | `split('.')[1]` is missing exactly when the token has no dot; otherwise it is exactly the dot-free text after the first dot, ending at the next dot or at the end |
| Tokens.SecondSegmentOfParts | src/app/core/auth/token.service.ts:60 | For dot-free `head` and `segment`, both `head.segment` and `head.segment.tail` have `segment` as their second part |
| Tokens.StripPadding | src/app/core/auth/token.service.ts:60 | Only when the length is a multiple of four, at most two final `=` are dropped: both when the text ends in `==`, one when it ends in a single `=`; what is dropped is `=` only |
| Tokens.RemainderOneRejected | src/app/core/auth/token.service.ts:60 | `atob` rejects text without white space whose length leaves remainder 1 when divided by four |
| Tokens.AtobRejectsUndefined | src/app/core/auth/token.service.ts:60 | The text "undefined" that a missing segment hands to `atob` is rejected |
| Tokens.Decode | src/app/core/auth/token.service.ts:60 | A payload is produced only from a present segment that `atob` accepts, and from such a segment it is exactly what `parse` makes of it |
| Tokens.IsExpired | src/app/core/auth/token.service.ts:56-66 | No token, or a token that does not decode, counts as expired |
| Tokens.IsExpiredOnPayload | src/app/core/auth/token.service.ts:61-62 | A decoded payload without `exp` (or with `exp` 0) is not expired; otherwise expiry holds exactly when the clock has reached `exp` seconds |
| Tokens.GetRole | src/app/core/auth/token.service.ts:68-78 | No role without a token; with a token that decodes, exactly the mapped `role` claim |
| Tokens.GetEmail | src/app/core/auth/token.service.ts:80-89 | No email without a token; with a token that decodes, exactly the `sub` claim |
| Tokens.UrlSafePayloadFailsClosed | src/app/core/auth/token.service.ts:56-89 | A payload segment containing `-` or `_` never decodes, so the token reads as expired with neither role nor email |
| Tokens.NoDotFailsClosed | src/app/core/auth/token.service.ts:56-89 | A token without a dot reads as expired with neither role nor email |
| Interceptor.Outgoing | src/app/core/auth/auth.interceptor.ts:9-16 | The URL and every other header are kept; an Authorization header is added only for a truthy token outside the auth routes, and it is `Bearer <token>` |
| Interceptor.Relay | src/app/core/auth/auth.interceptor.ts:18-35 | The caller sees the response unchanged; a 401 clears the token and navigates to `/`, anything else does neither |
| Interceptor.Intercept | src/app/core/auth/auth.interceptor.ts:5-36 | The backend receives the outgoing request and the caller receives the backend's stream |
| Interceptor.AuthRoutesCarryNoToken | src/app/core/auth/auth.interceptor.ts:9-16 | Login and register requests go out unchanged even with a token stored |
| Interceptor.NoTokenNoHeader | src/app/core/auth/auth.interceptor.ts:13-16 | Without a truthy token the request goes out unchanged |
| Interceptor.OtherRoutesCarryBearer | src/app/core/auth/auth.interceptor.ts:13-16 | Any other request with a token carries exactly `Bearer <token>` |
| Interceptor.UnauthorizedDropsCredential | src/app/core/auth/auth.interceptor.ts:24-29 | After a 401 the token is gone and the next request, whatever its URL, goes out without a credential |
| Interceptor.OtherOutcomesKeepToken | src/app/core/auth/auth.interceptor.ts:22-31 | Any other outcome keeps the token and navigates nowhere |
| LoginView.ToggleMode | src/app/login/login.ts:38-40 | The mode flips |
| LoginView.ToggleTwice | src/app/login/login.ts:38-40 | Toggling twice restores the mode |
| LoginView.OnLoginSubmit | src/app/login/login.ts:46-64 | An invalid form changes nothing; at most one navigation, issued exactly when the login succeeds, to the new user's role home |
| LoginView.FailedLoginChangesNothing | src/app/login/login.ts:52-56 | Unknown credentials leave the session as it was and navigate nowhere |
| LoginView.LoginLandsWhereGuardSends | src/app/login/login.ts:57-62 | The page a login lands on is the one the logged-out guard sends the new session to |
| LoginView.AdminLandsOnAdminDashboard | src/app/login/login.ts:57-59 | A table admin lands on the admin dashboard |
| LoginView.CustomerLandsOnCustomerDashboard | src/app/login/login.ts:60-62 | A table customer lands on the customer dashboard |
| Campaigns.NonDigitPrefix | src/app/features/admin/admin-campaigns/campaigns.ts:85 | The length of the leading run of non-digits |
| Text.ParseNumber | src/app/features/admin/admin-engage/admin-engage.ts:87 | `Number` of blank text is 0; any other number is read only from text holding a digit, and a negative one only after a leading `-` |
| Text.ParseFraction | src/app/features/admin/admin-engage/admin-engage.ts:87 | Digits, a dot and digits (either run may be empty, not both) read as the whole part plus the fraction: `5.` is 5, `.5` is 0.5, `1.5` is 1.5 |
| Text.ParseDigits | src/app/features/admin/admin-campaigns/campaigns.ts:85 | A non-empty digit string reads as its decimal value |
| Text.ParsePaddedDecimal | src/app/features/admin/admin-campaigns/campaigns.ts:85-87 | `Number` reads the zero-padded decimal digits of `n` back as `n` |
| Campaigns.StripNonDigitPrefix | src/app/features/admin/admin-campaigns/campaigns.ts:85 | `replace(/^\D+/, '')` leaves text that is empty or starts with a digit |
| Campaigns.StripPrefixOf | src/app/features/admin/admin-campaigns/campaigns.ts:85 | A non-digit prefix in front of a digit is exactly what is stripped |
| Campaigns.IdNumber | src/app/features/admin/admin-campaigns/campaigns.ts:85-86 | An id contributes a number exactly when the model's decimal reading of its stripped text (`Text.ParseNumber`) is a whole number, and it is that number |
| Campaigns.IdNumberOfPadded | src/app/features/admin/admin-campaigns/campaigns.ts:85-88 | `C-` plus the zero-padded decimal of `n` reads back as `n` |
| Campaigns.IdNumbers | src/app/features/admin/admin-campaigns/campaigns.ts:83-86 | Every campaign whose id parses contributes its number |
| Campaigns.IdNumbersFromIds | src/app/features/admin/admin-campaigns/campaigns.ts:83-86 | Every collected number is the number of some campaign's id |
| Campaigns.Max | src/app/features/admin/admin-campaigns/campaigns.ts:87 | `Math.max` of a non-empty list is an element at least as large as every element |
| Campaigns.NextNumber | src/app/features/admin/admin-campaigns/campaigns.ts:82-88 | One more than the largest collected number, which is among them, or 1 when no id parses |
| Campaigns.NextNumberAboveIds | src/app/features/admin/admin-campaigns/campaigns.ts:82-88 | The next number exceeds every number an existing id carries |
| Campaigns.NextId | src/app/features/admin/admin-campaigns/campaigns.ts:82-89 | `C-` followed by at least three digits, which read back as the next number, so no existing campaign has the id |
| Campaigns.CreateFromForm | src/app/features/admin/admin-campaigns/campaigns.ts:63-79 | A fresh id; the form's name and target; the requested status; equal timestamps; segment size 0; the discount fallbacks in order; each date converted when the form's is non-empty and absent otherwise |
| Campaigns.InsertTop | src/app/features/admin/admin-campaigns/campaigns.ts:59-61 | The new campaign is at the head and the old list follows unchanged |
| Campaigns.CreateDraft | src/app/features/admin/admin-campaigns/campaigns.ts:31-34 | One SCHEDULED campaign with the next id is added at the head; the rest is unchanged |
| Campaigns.Launch | src/app/features/admin/admin-campaigns/campaigns.ts:37-40 | One ACTIVE campaign with the next id is added at the head; the rest is unchanged |
| Campaigns.Overlay | src/app/features/admin/admin-campaigns/campaigns.ts:46 | Every field the changes carry takes the changed value and every one they leave out keeps the old one; id, creation time and segment size stay; the modification time is stamped |
| Campaigns.Update | src/app/features/admin/admin-campaigns/campaigns.ts:43-49 | Same length and ids; campaigns with the id take the changes, every other campaign is untouched |
| Campaigns.UpdateUnknownId | src/app/features/admin/admin-campaigns/campaigns.ts:43-49 | An id no campaign has changes nothing |
| Campaigns.UpdateIdempotent | src/app/features/admin/admin-campaigns/campaigns.ts:43-49 | Repeating an update with the same changes and clock changes nothing more |
| Campaigns.Delete | src/app/features/admin/admin-campaigns/campaigns.ts:52-55 | Exactly the campaigns with that id go, the rest keep their order, and the counts add up |
| Campaigns.DeleteUndoesCreate | src/app/features/admin/admin-campaigns/campaigns.ts:31-55 | Deleting the campaign a draft or launch just created restores the list, since its id was fresh |
| Campaigns.ActiveCount | src/app/features/admin/admin-campaigns/admin-campaigns.ts:138 | The number of ACTIVE campaigns, counted one by one, and zero exactly when there is none |
| Campaigns.ActiveCountAfterCreate | src/app/features/admin/admin-campaigns/admin-campaigns.ts:138 | A launch adds one active campaign and a draft none |
| CampaignEditor.OnRows | src/app/features/admin/admin-campaigns/admin-campaigns.ts:50-58 | The active count follows the new rows; an expanded row beyond them is closed, one within them stays |
| CampaignEditor.Init | src/app/features/admin/admin-campaigns/admin-campaigns.ts:32-59 | The page starts valid, not editing and with nothing expanded |
| CampaignEditor.Publish | src/app/features/admin/admin-campaigns/admin-campaigns.ts:50-58 | The store becomes the new list, the edited row and form are kept, and the page stays valid while the edited row still exists |
| CampaignEditor.ResetForm | src/app/features/admin/admin-campaigns/admin-campaigns.ts:170-180 | Editing ends and the default form returns; expansion and count stay |
| CampaignEditor.CancelEdit | src/app/features/admin/admin-campaigns/admin-campaigns.ts:128-130 | Editing ends, the store is untouched, and the page stays valid |
| CampaignEditor.SaveDraft | src/app/features/admin/admin-campaigns/admin-campaigns.ts:62-69 | Nothing happens while editing or with an invalid form; otherwise the store gains the draft, editing is off, and the page stays valid |
| CampaignEditor.LaunchCampaign | src/app/features/admin/admin-campaigns/admin-campaigns.ts:72-80 | As saving a draft, with an ACTIVE campaign, and the active count grows by one |
| CampaignEditor.EditCampaign | src/app/features/admin/admin-campaigns/admin-campaigns.ts:83-97 | Editing the row starts; the form takes its status and its discount or the default one; the page stays valid |
| CampaignEditor.DetailsButton | src/app/features/admin/admin-campaigns/admin-campaigns.ts:100-102 | The row closes if it was the expanded one and opens otherwise; nothing else changes |
| CampaignEditor.DetailsButtonTwice | src/app/features/admin/admin-campaigns/admin-campaigns.ts:100-102 | Two presses restore the state when no row or that row was expanded, and close everything when another row was |
| CampaignEditor.SaveUpdate | src/app/features/admin/admin-campaigns/admin-campaigns.ts:105-125 | Nothing happens unless editing with a valid form; otherwise the campaigns with the edited row's id take the form's values and editing ends; the page stays valid |
| CampaignEditor.SaveUpdateWritesForm | src/app/features/admin/admin-campaigns/admin-campaigns.ts:105-125 | The edited row keeps its id and carries the form's name, discount, target and status, stamped now |
| CampaignEditor.NoCreateWhileEditing | src/app/features/admin/admin-campaigns/admin-campaigns.ts:62-80 | While editing neither create button changes anything |
| CampaignEditor.StatusClass | src/app/features/admin/admin-campaigns/admin-campaigns.ts:158-160 | The chip class is `chip-` and the lower-cased status name |
| CampaignEditor.StatusClassInjective | src/app/features/admin/admin-campaigns/admin-campaigns.ts:158-160 | Different statuses get different chips |
| RiskStore.GetAllRisks | src/app/features/admin/admin-risk/admin-risk-data.ts:183-186 | A copy equal to the store |
| RiskStore.ToggleFlag | src/app/features/admin/admin-risk/admin-risk-data.ts:188-193 | Only the first record of the customer flips its flag; every other record, and the store under an unknown id, stays |
| RiskStore.ToggleFlagTwice | src/app/features/admin/admin-risk/admin-risk-data.ts:188-193 | Toggling the same customer twice restores the store |
| RiskStore.SeedToggleFirstDuplicateOnly | src/app/features/admin/admin-risk/admin-risk-data.ts:22-180 | On the seed, `CUST-2003` appears twice and only its first record toggles |
| RiskStore.FilterByRiskLevel | src/app/features/admin/admin-risk/admin-risk-data.ts:195-197 | Exactly the records at that level, each as often as in the store, in store order |
| RiskStore.LevelsPartitionStore | src/app/features/admin/admin-risk/admin-risk-data.ts:195-197 | The three level filters split the store |
| RiskView.ComputeSummary | src/app/features/admin/admin-risk/admin-risk.ts:49-53 | Each count is the number of records at its level, and the three add up to the records |
| RiskView.TableOrderIsPreorder | src/app/features/admin/admin-risk/admin-risk.ts:86-91 | The comparator is total and transitive, so the sort is well defined |
| RiskView.Filtered | src/app/features/admin/admin-risk/admin-risk.ts:74-83 | Exactly the records passing both filters, each as often as in the store; with both `All`, the store |
| RiskView.SortedIsTableOrder | src/app/features/admin/admin-risk/admin-risk.ts:86-91 | Sorted by the comparator means higher rank first, then higher score |
| Seqs.SortKeepsTies | src/app/features/admin/admin-risk/admin-risk.ts:87-93 | Stability: the elements the comparator ties with any given one leave the sort in the order they entered it |
| RiskView.ApplyFilters | src/app/features/admin/admin-risk/admin-risk.ts:74-94 | A permutation of the filtered records in table order |
| RiskView.ApplyFiltersRows | src/app/features/admin/admin-risk/admin-risk.ts:74-94 | A row is shown exactly when it passes both filters; with both `All`, the table reorders the store |
| RiskView.RiskBadgeClass | src/app/features/admin/admin-risk/admin-risk.ts:97-104 | The badge class is `badge-` and the lower-cased level name |
| RiskView.LoadData | src/app/features/admin/admin-risk/admin-risk.ts:43-47 | The view reads the store, its summary and its filtered table; the filters stay |
| RiskView.OnRiskLevelChange | src/app/features/admin/admin-risk/admin-risk.ts:56-59 | The level filter is set and the table is recomputed from the same records |
| RiskView.OnPolicyTypeChange | src/app/features/admin/admin-risk/admin-risk.ts:61-64 | The type filter is set and the table is recomputed from the same records |
| RiskView.ToggleFlagFromView | src/app/features/admin/admin-risk/admin-risk.ts:66-71 | The store toggles and the view reloads from it |
| RiskView.ToggleKeepsSummary | src/app/features/admin/admin-risk/admin-risk.ts:66-71 | A toggle leaves the summary counts unchanged |
| Dashboard.GetHighRiskCustomers | src/app/features/admin/admin-dashboard/admin-service.ts:150-154 | The lesser of ten and the store's size rows, drawn from the store, in ascending probability, and no row left out has a lower probability than a row returned |
| Dashboard.FilterRows | src/app/features/admin/admin-dashboard/admin-dashboard.ts:128-144 | Exactly the rows passing every applicable filter, each as often as in the input |
| Dashboard.ApplyFilters | src/app/features/admin/admin-dashboard/admin-dashboard.ts:125-147 | At most eight rows, each from the list and passing every filter on the trimmed, lower-cased query |
| Dashboard.ApplyFiltersIsFirstEightPassing | src/app/features/admin/admin-dashboard/admin-dashboard.ts:125-147 | The chained filters give the first eight rows that one filter on all criteria keeps |
| Dashboard.BlankQueryFiltersNothing | src/app/features/admin/admin-dashboard/admin-dashboard.ts:126-138 | A search of white space only acts like no search |
| MockData.Percent | src/app/features/admin/admin.service.ts:403-406 | 0 for a zero total; otherwise the nearest whole percentage, halves up; at most 100 for a part within the total |
| MockData.PercentAtMostHalf | src/app/features/admin/admin.service.ts:403-406 | A part at most half the total is at most 50 percent |
| MockData.PercentEnds | src/app/features/admin/admin.service.ts:403-406 | The whole of a positive total is 100 percent and none of it 0 |
| MockData.GetCustomer | src/app/features/admin/admin.service.ts:248-250 | The first customer with that id in table order, and none exactly when no customer has it |
| MockData.ListPoliciesByCustomer | src/app/features/admin/admin.service.ts:256-258 | Exactly the customer's policies, each as often as in the table, in table order |
| MockData.ListRemindersByCustomer | src/app/features/admin/admin.service.ts:297-299 | Exactly the customer's reminders, each as often as in the table, in table order |
| MockData.ListCampaignsForCustomer | src/app/features/admin/admin.service.ts:306-310 | Exactly the campaigns whose targets include the customer, each as often as in the table; campaigns without targets never |
| MockData.GetPolicyWithCustomer | src/app/features/admin/admin.service.ts:260-270 | Nothing exactly when no policy has the id; an error exactly when the policy's customer is missing; otherwise the policy with the id, joined with the id, name, email and phone of the first customer with the policy's customer id |
| MockData.EnrichAll | src/app/features/admin/admin.service.ts:276-285 | Every item enriches exactly when each has its customer and policy, position by position |
| MockData.ListRiskDashboard | src/app/features/admin/admin.service.ts:273-290 | Delivered exactly when every item joins; then one row per item, by descending score, a permutation of the joined rows |
| MockData.ListRiskDashboardRows | src/app/features/admin/admin.service.ts:273-290 | A row is shown exactly when it is the join of some risk item |
| MockData.LinkedJoinsDeliver | src/app/features/admin/admin.service.ts:260-290 | On tables whose references resolve, both joins deliver |
| MockData.DistinctCount | src/app/features/admin/admin.service.ts:336-338 | The size of the `Set` of the ids |
| MockData.HighRiskIds | src/app/features/admin/admin.service.ts:337 | Exactly the customer ids of the items scoring 60 or more |
| MockData.HighRiskCustomerCount | src/app/features/admin/admin.service.ts:336-338 | The number of distinct customers with a risk item scoring 60 or more |
| MockData.ExpiredAmongLive | src/app/features/admin/admin.service.ts:330-332 | There are no more expired policies than active-or-expired ones |
| MockData.RenewalRate | src/app/features/admin/admin.service.ts:330-334 | The rounded share of renewed policies among renewed and active-or-expired ones, at most 100 |
| MockData.ChurnRate | src/app/features/admin/admin.service.ts:330-335 | The rounded share of expired policies among expired and active-or-expired ones, at most 50 |
| MockData.EngagementRate | src/app/features/admin/admin.service.ts:341-342 | The rounded share of responded reminders, at most 100 |
| MockData.GetSummaryFigures | src/app/features/admin/admin.service.ts:329-355 | Renewal is `percent(renewed, renewed + active-or-expired)` and churn `percent(expired, expired + active-or-expired)` over the policy counts, so at most 100 and 50; engagement is `percent(responded, reminders)`; distinct high-risk customers; one prediction per risk item; ROI 48 |
| PolicyStore.GetAllPolicies | src/app/features/admin/admin-plolicy-list/admin-policy-data.ts:141-144 | A copy equal to the catalogue |
| PolicyStore.GetMotorPolicies | src/app/features/admin/admin-plolicy-list/admin-policy-data.ts:146-148 | Exactly the Motor products, in catalogue order |
| PolicyStore.GetHealthPolicies | src/app/features/admin/admin-plolicy-list/admin-policy-data.ts:150-152 | Exactly the Health products, in catalogue order |
| PolicyStore.TypesPartitionCatalogue | src/app/features/admin/admin-plolicy-list/admin-policy-data.ts:141-152 | The Motor and Health views together are as long as the catalogue |
| PolicyList.ResolveType | src/app/features/admin/admin-plolicy-list/admin-plolicy-list.ts:36-40 | A bound input wins over the route's data |
| PolicyList.LoadPolicies | src/app/features/admin/admin-plolicy-list/admin-plolicy-list.ts:46-63 | Each view type gets its heading and catalogue view, and no type means All |
| PolicyList.Searched | src/app/features/admin/admin-plolicy-list/admin-plolicy-list.ts:66-70 | Exactly the products whose lower-cased name contains the normalized term, each as often as loaded; a blank term keeps all |
| PolicyList.NewestFirstIsPreorder | src/app/features/admin/admin-plolicy-list/admin-plolicy-list.ts:72-74 | The date comparator is total and transitive |
| PolicyList.ApplyFilters | src/app/features/admin/admin-plolicy-list/admin-plolicy-list.ts:65-75 | A permutation of the searched products, newest first |
| PolicyList.DisplayedRows | src/app/features/admin/admin-plolicy-list/admin-plolicy-list.ts:65-75 | A product is displayed exactly when it passes the search; a blank term displays the whole catalogue view reordered |
| PolicyList.OnRouteData | src/app/features/admin/admin-plolicy-list/admin-plolicy-list.ts:36-43 | The type settles with the input winning, heading and list follow it, the term survives, and the display is the `ApplyFilters` list: the searched products as a permutation, newest first |
| PolicyList.CurrentRoutePath | src/app/features/admin/admin-plolicy-list/admin-plolicy-list.ts:98-103 | Each view type gets its route, and no type means all |
| PolicyList.RouteMatchesHeading | src/app/features/admin/admin-plolicy-list/admin-plolicy-list.ts:46-103 | The route path and the heading always name the same view |
| Engagement.FromBackend | src/app/features/admin/admin-engage/engagement.service.ts:51-62 | The id is the backend's; `customerId`, `sentDate` and `message` become `custId`, `dateSent` and `trigger`; policy id, category, status and risk score carry over, a null score becoming absent |
| Engagement.ToBackend | src/app/features/admin/admin-engage/engagement.service.ts:64-72 | `custId`, `dateSent` and `trigger` become `customerId`, `sentDate` and `message`; policy id and status carry over |
| Engagement.ToBackendAfterFromBackend | src/app/features/admin/admin-engage/engagement.service.ts:51-72 | Mapping a backend record to the console and back gives its create-fields |
| Engagement.FromBackendAfterToBackend | src/app/features/admin/admin-engage/engagement.service.ts:51-72 | A record created from a console reminder maps back to one agreeing on every field sent |
| Engagement.FromBackendAll | src/app/features/admin/admin-engage/engagement.service.ts:77 | One console reminder per backend record, in order |
| Engagement.FromBackendAllAppend | src/app/features/admin/admin-engage/engagement.service.ts:84 | The mapping commutes with concatenation |
| EngageView.RiskMapDomain | src/app/features/admin/admin-engage/admin-engage.ts:72-73 | The map binds exactly the customer ids that occur in the feed |
| EngageView.RiskMapLastWins | src/app/features/admin/admin-engage/admin-engage.ts:72-73 | Each id is bound to the score of its last row |
| EngageView.Merge | src/app/features/admin/admin-engage/admin-engage.ts:75 | Only the risk score changes: to the last matching row's score, or kept without one |
| EngageView.MergeKeepsLowestScore | src/app/features/admin/admin-engage/admin-engage.ts:67-76 | Over a feed sorted by descending score, the merged score is the customer's lowest |
| EngageView.LastIndexFrom | src/app/features/admin/admin-engage/admin-engage.ts:73 | The last row of a customer at or after a given row |
| EngageView.FilterByCustomer | src/app/features/admin/admin-engage/admin-engage.ts:86-89 | A non-zero `Number` selects exactly the reminders whose customer id equals it (none for a fractional one); 0 or `NaN` lists every reminder |
| EngageView.BlankFilterListsAll | src/app/features/admin/admin-engage/admin-engage.ts:86-89 | A blank filter lists every reminder |
| EngageView.BlankFormCannotSend | src/app/features/admin/admin-engage/admin-engage.ts:94-97 | A reset single form fails the check, so it sends nothing |
| EngageView.FilteredCustomers | src/app/features/admin/admin-engage/admin-engage.ts:161-169 | Exactly the customers meeting the risk and category criteria, each as often as in the list, in order |
| EngageView.AnyCategoryFiltersByRiskOnly | src/app/features/admin/admin-engage/admin-engage.ts:161-169 | With category ANY only the risk criterion filters, and a customer without a score always passes |
| EngageView.BulkTargets | src/app/features/admin/admin-engage/admin-engage.ts:117-126 | Requests go out exactly when date and trigger are set and somebody passes the filter, and then for exactly those customers |
| EngageView.GetRiskForCust | src/app/features/admin/admin-engage/admin-engage.ts:198-201 | The score of the first customer with that id, none without one |
| EngageView.MergedRiskReadsBack | src/app/features/admin/admin-engage/admin-engage.ts:72-75 | After the merge, a customer reads back the score of their last risk row |
| Navbar.IsOnSettingsPage | src/app/shared/navbar/navbar.ts:23 | True exactly when the URL's first 18 characters are `/customer/settings` |
| Navbar.SettingsPrefixCounts | src/app/shared/navbar/navbar.ts:29 | Any URL extending the settings path counts |
| Navbar.SplitFrom | src/app/shared/navbar/navbar.ts:52 | The split always has a piece, and no piece is empty when the text has no white space at either end |
| Navbar.SplitWs | src/app/shared/navbar/navbar.ts:52 | Splitting trimmed non-empty text gives non-empty pieces |
| Navbar.AvatarInitials | src/app/shared/navbar/navbar.ts:50-55 | At most two characters: the name's initials, else the upper-cased first character of the email, else nothing without a user |
| Navbar.HeadsOfSplit | src/app/shared/navbar/navbar.ts:52 | The pieces of the split start exactly at the word starts |
| Navbar.NameInitialsAreWordStarts | src/app/shared/navbar/navbar.ts:51-53 | The initials are the first two word starts of the name, upper-cased, whatever white space surrounds the words |
| Navbar.TrimKeepsWordStarts | src/app/shared/navbar/navbar.ts:52 | Trimming does not move the word starts |
| Navbar.SpacingKeepsWordStarts | src/app/shared/navbar/navbar.ts:52 | Replacing one run of white space by another keeps the initials' source |
| Navbar.InitialsAtMostTwo | src/app/shared/navbar/navbar.ts:53 | The name's initials have at most two characters |
| Analytics.Round | src/app/features/admin/admin-analytics/analytics.service.ts:93 | `Math.round`: within a half, halves up |
| Analytics.LexLeTotal | src/app/features/admin/admin-analytics/analytics.service.ts:86-88 | Any two dates compare |
| Analytics.LexLeTrans | src/app/features/admin/admin-analytics/analytics.service.ts:86-88 | The date order is transitive |
| Analytics.LatestReport | src/app/features/admin/admin-analytics/analytics.service.ts:86-88 | There is a latest report exactly when there are reports, and it is one of them |
| Analytics.LatestIsFirstGreatest | src/app/features/admin/admin-analytics/analytics.service.ts:86-88 | The latest report has the greatest date, and every report before it an earlier one |
| Analytics.HeadlineRates | src/app/features/admin/admin-analytics/analytics.service.ts:90-91 | The rates are 0 without reports and the latest report's rounded ones otherwise |
| Analytics.RunToday | src/app/features/admin/admin-analytics/analytics.service.ts:95-96 | The number of predictions dated today, counted one by one; all exactly when every one is dated today |
| Analytics.RunTodayAdds | src/app/features/admin/admin-analytics/analytics.service.ts:95-96 | Counts over two batches add up, and a prediction dated another day adds nothing |
| Analytics.ScoreSumBounds | src/app/features/admin/admin-analytics/analytics.service.ts:100 | The score sum lies between the bounds times the count |
| Analytics.AverageRiskScore | src/app/features/admin/admin-analytics/analytics.service.ts:98-101 | 0 without predictions; otherwise the mean score rounded to the nearest whole number |
| Analytics.AverageWithinScale | src/app/features/admin/admin-analytics/analytics.service.ts:98-101 | Scores within 0..100 give an average within 0..100 |
| Analytics.RiskCounts | src/app/features/admin/admin-analytics/analytics.service.ts:105-107 | The numbers of Low, Medium and High predictions, counted one by one, which add up to the predictions |
| Analytics.HighRiskCount | src/app/features/admin/admin-analytics/analytics.service.ts:103 | The number of predictions scoring 70 or more, which is the High band |
| Analytics.MissingScoreIsLow | src/app/features/admin/admin-analytics/analytics.service.ts:105-107 | A prediction without a score is in the Low band only |
| Analytics.ChurnPct | src/app/features/admin/admin-analytics/analytics.service.ts:116-122 | 0 when no policy has the type; otherwise 100 times the expired policies of the type over the policies of the type, within 0..100 |
| Analytics.ChurnCounts | src/app/features/admin/admin-analytics/analytics.service.ts:116-122 | The two chained filters keep as many policies as have the type, and as many as have the type and expired |
| Analytics.ChurnFullWhenAllExpired | src/app/features/admin/admin-analytics/analytics.service.ts:116-122 | When every policy of the type has expired, churn is 100 |
| Analytics.ResponseRatePct | src/app/features/admin/admin-analytics/analytics.service.ts:127-130 | `percent` of the responded reminders, counted one by one, over all reminders: 0 without reminders and at most 100 |
| Analytics.ResponseRateAllAnswered | src/app/features/admin/admin-analytics/analytics.service.ts:127-130 | Every reminder answered gives 100 |
| Analytics.ResponseRateNoneAnswered | src/app/features/admin/admin-analytics/analytics.service.ts:127-130 | No reminder answered gives 0 |
| Analytics.SeriesOf | src/app/features/admin/admin-analytics/analytics.service.ts:133-140 | Twelve entries |
| Analytics.SeriesLastWins | src/app/features/admin/admin-analytics/analytics.service.ts:133-140 | Each month holds the rounded rate of the last report dated in it, and 0 when none is |
| Analytics.RenewalRateSeries | src/app/features/admin/admin-analytics/analytics.service.ts:133-145 | Twelve entries; a series with a non-zero entry is kept; an all-zero one with reports shows the latest rate in the current month only |
| Analytics.Project | src/app/features/admin/admin-analytics/analytics.service.ts:85-165 | Without reports the rates are 0; run-today within total; band counts sum to total and High equals high-risk; the average is 0 without predictions; engagement within 0..100; 12 months and entries, 2 churn values within 0..100, 3 bands |
| Analytics.HeadlineFromNewest | src/app/features/admin/admin-analytics/analytics.service.ts:86-93 | With reports, the renewal, churn and ROI figures are the rounded ones of a report with the greatest date |

## Left out

- HTTP, rxjs plumbing and delays. Each call is the value it delivers, or `Errored` where the source throws inside the stream.
- `localStorage` probing. This is a flag on `Auth.Session` and `Tokens.TokenStore`.
- `JSON.parse` and the byte decoding of `atob`. `JSON.parse` is the parameter `parse`.
- Date parsing, the clock, and the ISO conversions. They are parameters (`now`, `today`, `timeOf`, `monthOf`, `curMonth`, `toIso`, `toInputDate`) or left out. This covers:
  - the upcoming-expiry counts (admin.service.ts 313-326 and 344-349, analytics.service.ts 109-114);
  - `toInputDate`.
- Chart.js pages, Angular form validators, `alert`, `console` and `setTimeout` scrolling. Form validity is an input.
- The fixed constants of `getPolicySummary` and `getAlerts`.
- The graph arrays and `average_risk_score` in `getAnalyticsSummary`, which are floating point.
- `recomputeMetrics`' averaged conversion rate and ROI, which are floating point. Only the active count is kept.
- Angular's `isLoggedIn$` stream, `getStoredUser` and `onRegisterSubmit`.
- `createReminder`, `fillFromCustomer` and the request bodies `bulkCreateByRiskScore` builds. The checks that gate them are modelled.
- The seed tables of `MockDataService`, `AdminPolicyData` and `AdminService`. Operations are stated over any table. The `Campaigns`, `AdminRiskData` and `AuthService` seeds are reproduced.
- `localeCompare` collation. Dates are compared by code point, which orders ISO dates the same way.
- Unicode case mapping. `toLowerCase` and `toUpperCase` are ASCII.
- Text.ParseNumber: `Number()` is modelled on trimmed decimal text (an optional sign, digits and at most one `.`, with a digit somewhere) and on blank text. The exponent, `0x`/`0o`/`0b` and `Infinity` forms read as `NaN` here, although JavaScript gives them finite or infinite values. The value is the exact decimal, not the nearest double.
- EngageView.FilterByCustomer: inherits the `Number()` gap above. A filter such as `1e3` or `0x10` lists every reminder here, while the source selects customer 1000 or 16.
- Campaigns.IdNumber: an id whose digits part is fractional, such as `C-1.5`, contributes no number here. The source counts 1.5 in `Math.max` and would print a fractional next id (`C-2.5`). Ids such as `C-1e3`, `C-0x10`, `C-0o7` and `C-0b1` also contribute nothing here, because `Text.ParseNumber` reads no exponent or radix prefix, while the source's `Number` counts 1000, 16, 7 and 1, so `NextNumber` can then fall below the source's max + 1. The store only ever creates `C-` ids followed by digits, so its own ids always contribute.
- Interceptor.Outgoing: header names are map keys compared exactly, so only the key `Authorization` is added or replaced. Angular's `HttpHeaders` treats names case-insensitively, so a request already holding `authorization` would see it replaced, which the model does not express.
- Numbers are integers wherever the source holds whole numbers, such as ids, scores and counts. Report rates are exact reals.
- MockData.Percent: the `Math.round((part / total) * 100)` value is exact rational rounding. The double-precision product can fall just below a half where the exact value is a half.
- Analytics.ChurnPct: states the exact share, not the `Number(x.toFixed(1))` rounding to one decimal.
- Analytics.Project: leaves out `upcomingExpiries30Days`. The campaigns the page fetches are never read by the projection.
- Analytics.LatestReport: a stable sort puts the first report with the greatest date at the head. The model picks that report directly instead of sorting.
- Analytics.SeriesOf: an invalid date's `getMonth()` is `NaN`. Its write lands on a non-index property that `every` ignores, which the model expresses as no write.
- CampaignEditor.EditCampaign: requires an index of a shown row. The source reads `campaigns[index]` and has no other case.
- CampaignEditor.SaveUpdate: requires the page invariant `Valid`, which every page operation keeps. Under it the edited index names an existing row.
