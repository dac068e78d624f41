# Project Baksho — a Dafny model of its request rules and state helpers

Project Baksho is a crowdfunding platform. This project models, in Dafny, the parts of it that decide something.

- **Campaign service.** Organizers create campaigns through it. It stores each campaign with its ordered incentive tiers, pages through them, applies partial updates and deletes them. It trusts the organizer identity that the gateway puts in the `x-user-id` / `x-user-name` headers.
- **Notification service.** A small keyed table of per-user notifications with a `seen` flag. Its HTTP layer maps "absent" to 404.
- **API gateway.** A route table sends each (path, method) pair to a service. On two of the routes an authentication filter checks a `Bearer` token first; on success it adds identity headers to the forwarded request. JWT signature checking is a parameter `verify` that returns the token's claims or fails.
- **Web front end.** The React state helpers and validators:
  - the in-browser notification list and the mock sign-in state;
  - the navigation bar's badge and dashboard link;
  - the administrators' campaign review tabs and their user list;
  - the public campaign browser's filters and sort orders;
  - the campaign creation wizard;
  - the category overview's totals;
  - the profile wizard, the password-change form and the registration form.

Stateful parts are classes whose methods update fields: the stores, and every page or context that holds React state. A method's contract gives its whole new state, either in terms of a specification function or as "these fields, nothing else". Decisions and list transforms are functions, and the properties the code promises are lemmas about those functions.

Each module corresponds to one file of the system:

| module | file of the system |
|---|---|
| `CampaignModel` | `backend/campaign-service/models/campaign.py`, `schemas/campaign.py` |
| `CampaignStore` | `backend/campaign-service/crud/campaign.py` |
| `CampaignApi` | `backend/campaign-service/main.py` |
| `NotificationModel` | `backend/notification-service/models/notification.py`, `schemas/notification.py` |
| `NotificationStore` | `backend/notification-service/services/notification_service.py` |
| `NotificationApi` | `backend/notification-service/api/notifications.py` |
| `GatewayFilter` | `AuthenticationFilter.java` |
| `GatewayRoutes` | `GatewayConfig.java` |
| `Ui*` | one module per front-end file |
| `Text`, `Wrappers` | JavaScript/Java string operations, `Option` |

`backend/campaign-service/main.py` defines no PUT or DELETE handler. So `update_campaign` and `delete_campaign` are modelled at the store level only. The review request of the administrators' campaign page (a PUT to `/campaigns/{id}`) passes the gateway's filtered campaign route, but no campaign-service handler receives it.

## Model

| member | source | states |
|---|---|---|
| CampaignModel.TierPayload | backend/campaign-service/schemas/campaign.py:6-11 | a tier payload that names only amount, title and description has no estimated delivery and no quantity |
| CampaignModel.CampaignPayload | backend/campaign-service/schemas/campaign.py:14-25 | a creation payload that omits the tier list has the empty tier list, and every named field is as given |
| CampaignModel.NewTier | backend/campaign-service/crud/campaign.py:21-25 | a tier built from its payload copies all five payload fields and has neither key nor campaign link until stored |
| CampaignModel.NewTiers | backend/campaign-service/crud/campaign.py:21-25 | one tier per submitted tier payload, at the same position |
| CampaignModel.StoredTiers | backend/campaign-service/models/campaign.py:6-15 | storing keeps the tier order and gives tier j key firstId + j and the owning campaign's key as foreign key |
| CampaignModel.NewCampaign | backend/campaign-service/crud/campaign.py:11-25 | the transient campaign has no key and one tier per submitted tier, none of them keyed or linked yet |
| CampaignModel.Stored | backend/campaign-service/models/campaign.py:6-18 | committing gives the campaign its key and its tiers keys from firstTierId on, all owned by it; no other field changes |
| CampaignModel.NewCampaignDefaults | backend/campaign-service/models/campaign.py:17-45 | a new campaign has no key, raised 0, backers 0, featured/urgent/reviewed/approved all false, no note, and the server's time |
| CampaignModel.NewCampaignCopiesPayload | backend/campaign-service/crud/campaign.py:10-18 | the organizer comes from the caller's arguments and every other scalar field from the payload |
| CampaignModel.OrganizerIndependentOfPayload | backend/campaign-service/crud/campaign.py:14-18 | two payloads created by the same caller give the same organizer: no payload can choose it |
| CampaignModel.StoredCampaignTiers | backend/campaign-service/crud/campaign.py:20-25 | a stored new campaign has exactly the submitted tiers, in submission order, each with its payload fields, a fresh key and a foreign key to the campaign |
| CampaignModel.ReadEchoesPayload | backend/campaign-service/schemas/campaign.py:28-40 | reading back a created campaign gives exactly its creation payload (tiers and order included) plus key, organizer, zero progress, unset flags and tier keys |
| CampaignStore.PageSpec | backend/campaign-service/crud/campaign.py:50-56 | offset/limit paging returns at most `limit` rows, exactly min(limit, n − skip) of them, and row j of the page is row skip + j |
| CampaignStore.FullPage | backend/campaign-service/crud/campaign.py:54 | when skip + limit rows exist, the page is exactly the slice [skip, skip + limit) |
| CampaignStore.Page | backend/campaign-service/crud/campaign.py:54 | at most `limit` rows and never more than the result holds, exactly `limit` when that many rows follow skip |
| CampaignStore.SqlPageAsPage | backend/campaign-service/crud/campaign.py:46-54 | SQLite's page is the plain page with a negative skip read as 0 and a negative limit replaced by any bound on the result's length |
| CampaignStore.ApprovedPageSnoc | backend/campaign-service/crud/campaign.py:46 | scanning one more row grows the approved page by that row exactly when it is approved and its rank is inside the window |
| CampaignStore.ScanApproved | backend/campaign-service/crud/campaign.py:46-47 | the scan returns exactly the page [skip, skip + limit) of the approved rows in storage order |
| CampaignStore.SqlPage | backend/campaign-service/crud/campaign.py:46-54 | SQLite's `OFFSET`/`LIMIT`: `Page` for non-negative arguments, at most `limit` rows for a limit of 0 or more, everything from skip on (a negative skip read as 0) for a negative limit |
| CampaignStore.Approved | backend/campaign-service/crud/campaign.py:46 | the approved filter never lengthens the list |
| CampaignStore.ApprovedMembers | backend/campaign-service/crud/campaign.py:46 | the approved filter keeps exactly the stored campaigns with `approved` true |
| CampaignStore.ApprovedPageIsApproved | backend/campaign-service/crud/campaign.py:42-48 | a page of the approved listing holds only approved stored campaigns and at most `limit` of them |
| CampaignStore.AddTiers | backend/campaign-service/crud/campaign.py:20-25 | the loop yields the submitted tiers in order, tier j keyed firstId + j and linked to the campaign, all keys below firstId + n |
| CampaignStore.InsertKeepsTable | backend/campaign-service/crud/campaign.py:30-33 | the next key is not in use, and inserting the stored campaign under it keeps the table invariant and the storage order |
| CampaignStore.Store.constructor | backend/campaign-service/models/campaign.py:6-18 | no stored campaigns, so the first campaign key handed out is 1; the first tier key is 1 |
| CampaignStore.Store.Create | backend/campaign-service/crud/campaign.py:6-35 | one new row, under one more than the largest key in use (which is not in use), is added after all old rows; every old row is unchanged, and the row is the stored new campaign with its tiers keyed from the next tier key |
| CampaignStore.Store.GetById | backend/campaign-service/crud/campaign.py:37-40 | the row stored under the id, or None exactly when no row has that id |
| CampaignStore.Store.ListAll | backend/campaign-service/crud/campaign.py:50-56 | `SqlPage` of all stored campaigns in storage order: the slice [skip, skip + limit) for non-negative arguments, a negative skip read as 0 and a negative limit as no limit; at most `limit` rows |
| CampaignStore.Store.ListApproved | backend/campaign-service/crud/campaign.py:42-48 | `SqlPage` of the approved campaigns in storage order; every returned campaign is approved |
| CampaignStore.Store.Update | backend/campaign-service/crud/campaign.py:58-80 | only the updated row changes, to `Updated` of its old value; storage order unchanged; tier keys advance by the number of submitted tiers |
| CampaignStore.Store.Delete | backend/campaign-service/crud/campaign.py:82-85 | the row leaves the table and the storage order, the other keys keep their order, the tier key stays, and no remaining tier refers to the deleted campaign (the cascade) |
| CampaignStore.UpdateReplacesTiers | backend/campaign-service/crud/campaign.py:63-70 | with a tier list present, even an empty one, all old tiers are gone (no old tier key survives) and the new tiers are the submitted ones, in order, owned by the campaign |
| CampaignStore.UpdateKeepsTiers | backend/campaign-service/crud/campaign.py:60-63 | without a tier list the tiers stay exactly as they were |
| CampaignStore.UpdateOverwritesSetFields | backend/campaign-service/crud/campaign.py:73-75 | each set field is overwritten verbatim, each unset field keeps its value, and key, organizer, progress and creation time never change |
| CampaignStore.NoChangeIsIdentity | backend/campaign-service/crud/campaign.py:58-80 | an update that sets nothing leaves the campaign unchanged |
| CampaignStore.UpdateIdempotent | backend/campaign-service/crud/campaign.py:58-80 | without a tier list, applying the same update twice equals applying it once |
| CampaignStore.Assign | backend/campaign-service/crud/campaign.py:73-75 | the `setattr` loop never touches the key, the tiers, the organizer, the progress or the creation time |
| CampaignStore.Updated | backend/campaign-service/crud/campaign.py:58-80 | key, organizer, progress and creation time kept; without a tier list the tiers are kept, with one the new tiers are as many as submitted and owned by the campaign |
| Keys.NextKey | backend/campaign-service/models/campaign.py:18 | the key a new row gets is above every key in use, 1 in an empty table, and positive when every key in use is |
| Keys.NextKeyFresh | backend/notification-service/models/notification.py:7 | the next key is not the key of any stored row |
| Keys.IncreasingSnoc | backend/notification-service/models/notification.py:7 | appending a key above every key in use keeps the keys ascending |
| Keys.Without | backend/notification-service/services/notification_service.py:32-38 | deleting a key keeps exactly the other keys, still ascending |
| Keys.WithoutAbsent | backend/notification-service/services/notification_service.py:32-38 | deleting a key not in use changes nothing |
| Keys.LargestKeyReused | backend/campaign-service/models/campaign.py:18 | after deleting the row with the largest key, the next row gets a key no larger than the deleted one |
| Keys.KeyReusedAfterDelete | backend/campaign-service/models/campaign.py:18 | with rows 1 and 2 stored and row 2 deleted, the next row is stored under key 2 again |
| CampaignApi.ReadRoot | backend/campaign-service/main.py:41-43 | the liveness body names the Campaign Service as running |
| CampaignApi.ToReads | backend/campaign-service/main.py:67 | a list response has one read body per stored campaign, in order |
| CampaignApi.CreateNewCampaign | backend/campaign-service/main.py:45-65 | a missing identity header fails validation and an empty one gives 401, both with the store unchanged; otherwise the campaign is created with the header values as organizer and returned as stored, its key appended to the storage order and the tier key advanced by the number of submitted tiers |
| CampaignApi.GetCampaigns | backend/campaign-service/main.py:67-77 | the unfiltered page, approved or not, read as SQLite reads `OFFSET skip LIMIT limit`: skip 0 and limit 100 by default, at most `limit` bodies for a limit of 0 or more, every stored campaign for a negative limit and a skip of 0 or less |
| CampaignApi.GetSingleCampaign | backend/campaign-service/main.py:79-90 | 404 "Campaign not found" exactly for an unknown id, otherwise the stored campaign's read body |
| NotificationModel.FromCreateDefaults | backend/notification-service/models/notification.py:6-12 | a new notification has no key, is unseen, carries the server time and the payload's user, text and link |
| NotificationModel.ReadRoundTrip | backend/notification-service/schemas/notification.py:6-17 | reading a created notification back gives its payload unchanged plus the stored key, seen false and the server time |
| NotificationModel.ApplySeenSpec | backend/notification-service/services/notification_service.py:25-26 | a sent `seen` is set and an absent one keeps the old value; key, user, text, link and time never change |
| NotificationModel.ApplySeenIdempotent | backend/notification-service/services/notification_service.py:22-30 | the same update twice equals once |
| NotificationModel.FromCreate | backend/notification-service/services/notification_service.py:8 | the payload's user, text and link are kept, so the payload can be read back; no key, unseen, stamped with the server time |
| NotificationModel.ApplySeen | backend/notification-service/services/notification_service.py:25-26 | only `seen` can change, and it becomes the sent value or stays |
| NotificationStore.ForUser | backend/notification-service/services/notification_service.py:14-17 | the per-user query never lengthens the table |
| NotificationStore.ForUserMembers | backend/notification-service/services/notification_service.py:14-17 | the per-user query returns exactly the stored notifications of that user |
| NotificationStore.Store.constructor | backend/notification-service/models/notification.py:6-7 | an empty notification table, so the first key handed out is 1 |
| NotificationStore.Store.Create | backend/notification-service/services/notification_service.py:7-12 | the payload is stored as a new unseen notification under one more than the largest key in use (1 in an empty table), which is not in use; it is appended to the storage order and all other rows are unchanged |
| NotificationStore.Store.ByUser | backend/notification-service/services/notification_service.py:14-17 | the loop returns the per-user query in storage order: exactly that user's notifications |
| NotificationStore.Store.Get | backend/notification-service/services/notification_service.py:19-20 | the stored row, or None exactly when the key is absent |
| NotificationStore.Store.Update | backend/notification-service/services/notification_service.py:22-30 | an absent key gives None and no change; otherwise only that row changes, by `ApplySeen` |
| NotificationStore.Store.Delete | backend/notification-service/services/notification_service.py:32-38 | true exactly when the key existed; afterwards the key is gone from the table and from the storage order, the other keys keep their order, and nothing changes when it was absent |
| NotificationApi.CreateNotification | backend/notification-service/api/notifications.py:12-14 | the response is the service's newly stored notification |
| NotificationApi.GetNotificationsForUser | backend/notification-service/api/notifications.py:16-18 | the response is the service's per-user list, each body that user's |
| NotificationApi.UpdateNotification | backend/notification-service/api/notifications.py:20-25 | 404 exactly when the service finds no row (store unchanged), otherwise the updated row |
| NotificationApi.DeleteNotification | backend/notification-service/api/notifications.py:27-32 | 404 and no change when nothing was deleted, otherwise 204 with the row gone |
| GatewayFilter.PublicPathBypasses | backend/api-gateway/src/main/java/org/projectbakso/apigateway/filter/AuthenticationFilter.java:26-39 | a path containing a public endpoint is forwarded unchanged, whatever its headers |
| GatewayFilter.ForwardedIffVerified | backend/api-gateway/src/main/java/org/projectbakso/apigateway/filter/AuthenticationFilter.java:41-78 | elsewhere: the filter decides to forward iff the first Authorization value starts with "Bearer " and its suffix after 7 characters verifies; otherwise 401 |
| GatewayFilter.ForwardedIdentity | backend/api-gateway/src/main/java/org/projectbakso/apigateway/filter/AuthenticationFilter.java:63-75 | a verified request keeps its path, method and other headers; the claim id and the name, or "Unknown", are added to the identity headers |
| GatewayFilter.BypassByContainment | backend/api-gateway/src/main/java/org/projectbakso/apigateway/filter/AuthenticationFilter.java:33-39 | a tokenless PUT to a campaign path that merely contains a login endpoint is forwarded |
| GatewayFilter.SpoofedIdentityReachesService | backend/api-gateway/src/main/java/org/projectbakso/apigateway/filter/AuthenticationFilter.java:67-73 | a client's own X-User-Id stays first after the token's id is added |
| GatewayFilter.CorrectedBypassOnlyUnderAuth | backend/api-gateway/src/main/java/org/projectbakso/apigateway/filter/AuthenticationFilter.java:33-39 | with prefix matching, a path outside /api/users/auth is forwarded only with a verified Bearer token |
| GatewayFilter.CorrectedIdentityIsVerified | backend/api-gateway/src/main/java/org/projectbakso/apigateway/filter/AuthenticationFilter.java:67-73 | with replacement, a forwarded request carries exactly one X-User-Id (the token's) and one X-User-Name |
| GatewayFilter.Apply | backend/api-gateway/src/main/java/org/projectbakso/apigateway/filter/AuthenticationFilter.java:23-73 | the filter's decision before the downstream call: a forwarded request keeps its path and method; a 401 is only given off the public paths, and nothing off them is forwarded without an Authorization header |
| GatewayFilter.Respond | backend/api-gateway/src/main/java/org/projectbakso/apigateway/filter/AuthenticationFilter.java:23-78 | with the downstream call included: 401 exactly off the public paths when the token checks fail or the forwarded call fails; the service's answer exactly when the filter forwards and the call succeeds; a failure propagates only on the bypass |
| GatewayFilter.DownstreamFailureLooksUnauthorized | backend/api-gateway/src/main/java/org/projectbakso/apigateway/filter/AuthenticationFilter.java:38-78 | a verified request whose forwarded call fails is answered 401, while the same failure on a public path propagates instead |
| GatewayFilter.ApplyCorrected | backend/api-gateway/src/main/java/org/projectbakso/apigateway/filter/AuthenticationFilter.java:23-78 | the same, with the intended bypass; off it a forwarded request carries exactly one X-User-Id |
| GatewayRoutes.RoutePrefix | backend/api-gateway/src/main/java/org/projectbakso/apigateway/config/GatewayConfig.java:28-107 | every request a route accepts lies under that route's path pattern |
| GatewayRoutes.RoutesDisjoint | backend/api-gateway/src/main/java/org/projectbakso/apigateway/config/GatewayConfig.java:28-107 | no request matches two routes |
| GatewayRoutes.SelectSpec | backend/api-gateway/src/main/java/org/projectbakso/apigateway/config/GatewayConfig.java:28-107 | the selected route is exactly the one whose predicate holds |
| GatewayRoutes.UserRoutes | backend/api-gateway/src/main/java/org/projectbakso/apigateway/config/GatewayConfig.java:28-51 | everything under /api/users reaches the user service, through the filter exactly when not under /api/users/auth |
| GatewayRoutes.CampaignRoutes | backend/api-gateway/src/main/java/org/projectbakso/apigateway/config/GatewayConfig.java:59-91 | under /campaigns, POST/PUT/DELETE take the filtered route, GET the unfiltered one, and other methods have no route |
| GatewayRoutes.NotificationRoutes | backend/api-gateway/src/main/java/org/projectbakso/apigateway/config/GatewayConfig.java:94-107 | GET/POST/PUT/DELETE under /notifications reach the notification service unfiltered |
| GatewayRoutes.Handle | backend/api-gateway/src/main/java/org/projectbakso/apigateway/config/GatewayConfig.java:28-107 | no route gives the gateway's 404; a routed request goes to its route's service; on an unfiltered route it goes unchanged |
| GatewayRoutes.CampaignWriteNeedsToken | backend/api-gateway/src/main/java/org/projectbakso/apigateway/config/GatewayConfig.java:59-74 | as written, a campaign write reaches the campaign service only with a verified Bearer token or through the containment bypass |
| GatewayRoutes.CorrectedCampaignWriteNeedsToken | backend/api-gateway/src/main/java/org/projectbakso/apigateway/config/GatewayConfig.java:59-74 | with the corrected filter, every campaign write that reaches the service has a verified token and carries exactly that token's id |
| GatewayRoutes.Matches | backend/api-gateway/src/main/java/org/projectbakso/apigateway/config/GatewayConfig.java:28-107 | every route lies under /api/users, /campaigns or /notifications; the campaign and notification routes accept only GET, POST, PUT and DELETE |
| GatewayRoutes.Select | backend/api-gateway/src/main/java/org/projectbakso/apigateway/config/GatewayConfig.java:28-107 | the selected route matches the request, and `None` (the 404) only when no route does |
| UiNotifications.Seed | frontend/contexts/notification-context.tsx:25-42 | the list starts with two unread notices, ids "1" and "2" |
| UiNotifications.MarkedRead | frontend/contexts/notification-context.tsx:54-58 | same length and order; notices with the id become read, every other notice is unchanged |
| UiNotifications.MarkedReadIdempotent | frontend/contexts/notification-context.tsx:56 | marking twice equals marking once |
| UiNotifications.MarkedReadEffect | frontend/contexts/notification-context.tsx:54-58 | every notice with the id is read afterwards; an id no notice has changes nothing |
| UiNotifications.NotificationCenter.constructor | frontend/contexts/notification-context.tsx:25-42 | the provider starts with the two seed notices |
| UiNotifications.NotificationCenter.AddNotification | frontend/contexts/notification-context.tsx:44-52 | the new unread notice, with the clock reading as id and time, is put in front of the old list |
| UiNotifications.NotificationCenter.MarkAsRead | frontend/contexts/notification-context.tsx:54-58 | the list becomes `MarkedRead` of the old list |
| UiNotifications.NotificationCenter.ClearAll | frontend/contexts/notification-context.tsx:60-62 | the list becomes empty |
| UiAuth.LoginUser | frontend/contexts/auth-context.tsx:49-55 | the mock user has id "1" and the given email, and is admin iff the email contains "admin", else donor |
| UiAuth.LoginName | frontend/contexts/auth-context.tsx:52 | the name is the longest prefix of the email without '@': all of it when there is none |
| UiAuth.RegisteredUser | frontend/contexts/auth-context.tsx:72-78 | the registered user has exactly the given email, name and role, the fixed avatar, and the clock reading written in decimal as id |
| UiAuth.RegisteredIdDiffersFromLogin | frontend/contexts/auth-context.tsx:73 | a registered user's id differs from the mock login's "1" unless the clock read 1 |
| UiAuth.AuthState.constructor | frontend/contexts/auth-context.tsx:33-34 | no user and loading before the mount effect |
| UiAuth.AuthState.Restore | frontend/contexts/auth-context.tsx:36-43 | a stored session becomes the user; loading ends |
| UiAuth.AuthState.Login | frontend/contexts/auth-context.tsx:45-61 | the user and the stored session become the mock user; loading is false afterwards |
| UiAuth.AuthState.Register | frontend/contexts/auth-context.tsx:63-84 | the user and the stored session become the registered user; loading is false afterwards |
| UiAuth.AuthState.Logout | frontend/contexts/auth-context.tsx:86-89 | no user and no stored session |
| UiNavbar.UnreadCount | frontend/components/layout/navbar.tsx:27 | the badge count never exceeds the number of notices |
| UiNavbar.BadgeIffUnread | frontend/components/layout/navbar.tsx:27 | the count is positive exactly when some notice is unread |
| UiNavbar.AddRaisesCount | frontend/components/layout/navbar.tsx:27 | adding an unread notice raises the count by one |
| UiNavbar.MarkLowersCount | frontend/components/layout/navbar.tsx:27 | marking an id read lowers the count by that id's unread notices and leaves none of them unread |
| UiNavbar.DashboardLink | frontend/components/layout/navbar.tsx:29-39 | "/login" without a user, admin and organizer dashboards for those roles, the donor dashboard otherwise |
| UiNavbar.LoginDashboard | frontend/components/layout/navbar.tsx:29-39 | after a mock login the admin dashboard is linked iff the email contains "admin" |
| UiAdminCampaigns.TabList | frontend/app/admin/campaigns/page.tsx:141-147 | a tab never holds more entries than the list |
| UiAdminCampaigns.TabListMembers | frontend/app/admin/campaigns/page.tsx:141-147 | a tab holds exactly the entries meeting its condition |
| UiAdminCampaigns.TabsPartition | frontend/app/admin/campaigns/page.tsx:141-147 | an entry with both flags is in exactly one tab; one without `approved` is in none |
| UiAdminCampaigns.Search | frontend/app/admin/campaigns/page.tsx:207-211 | the search never lengthens the pending list |
| UiAdminCampaigns.SearchEmptyTerm | frontend/app/admin/campaigns/page.tsx:207-211 | an empty term keeps the whole pending list |
| UiAdminCampaigns.SearchMembers | frontend/app/admin/campaigns/page.tsx:207-211 | the search keeps exactly the entries whose title or organizer name contains the term, ignoring case |
| UiAdminCampaigns.ReviewPayload | frontend/app/admin/campaigns/page.tsx:77-81 | the review sets reviewed true, approved iff the action is approve, and the note; with those three cleared it is the empty update, so it sets no other field and no tiers |
| UiAdminCampaigns.AdminCampaignsPage.constructor | frontend/app/admin/campaigns/page.tsx:40-52 | empty lists, empty search, nothing selected, dialog closed |
| UiAdminCampaigns.AdminCampaignsPage.Loaded | frontend/app/admin/campaigns/page.tsx:136-155 | the fetched list and its three tabs are stored; the dialog state is untouched |
| UiAdminCampaigns.AdminCampaignsPage.HandleReview | frontend/app/admin/campaigns/page.tsx:55-60 | the dialog opens for the campaign and action, with the notes pre-filled from its note or "" |
| UiAdminCampaigns.AdminCampaignsPage.SubmitReview | frontend/app/admin/campaigns/page.tsx:62-112 | submitted iff a campaign and action are chosen, a token exists, and the action is approve or the notes are not blank; without a token a submittable review redirects to the login page; a refused submission leaves the dialog as it was, and a submitted one resets it |
| UiAdminCampaigns.FromRead | backend/campaign-service/schemas/campaign.py:28-40 | an entry served through the read shape has no reviewed, approved or note |
| UiAdminCampaigns.ServedListFillsNoTab | frontend/app/admin/campaigns/page.tsx:141-147 | every tab is empty for every list the service can serve |
| UiAdminCampaigns.FromStored | frontend/app/admin/campaigns/page.tsx:141-147 | the intended entry carries the stored reviewed, approved and note |
| UiAdminCampaigns.CorrectedTabs | frontend/app/admin/campaigns/page.tsx:141-147 | with the flags served, each stored campaign is in exactly one tab, chosen by its flags |
| UiAdminCampaigns.ReviewMovesCampaign | frontend/app/admin/campaigns/page.tsx:77-81 | a new campaign is pending; after a review it is approved or rejected per the action, with the notes as its note and its tiers kept |
| UiAdminCampaigns.InTab | frontend/app/admin/campaigns/page.tsx:141-147 | an entry without `approved` is in no tab; the pending and rejected tabs need `reviewed` present and `approved` false |
| UiAdminCampaigns.TabSizes | frontend/app/admin/campaigns/page.tsx:141-147 | when every entry carries both flags the three tabs together hold exactly as many entries as the list |
| UiAdminCampaigns.FromStoredList | frontend/app/admin/campaigns/page.tsx:141-147 | the intended list has one entry per stored campaign, in order |
| UiAdminCampaigns.CorrectedTabSizes | frontend/app/admin/campaigns/page.tsx:141-147 | with the flags served, the three tabs together hold every stored campaign exactly once by count |
| UiAdminUsers.CountBanned | frontend/app/admin/page.tsx:110 | at most one banned user per user |
| UiAdminUsers.CountAdmins | frontend/app/admin/page.tsx:112 | at most one admin per user |
| UiAdminUsers.Stats | frontend/app/admin/page.tsx:108-114 | total is the number of users, active + banned = total, and admins ≤ total |
| UiAdminUsers.FilteredUsers | frontend/app/admin/page.tsx:172-183 | the filter never lengthens the list |
| UiAdminUsers.FilteredUsersMembers | frontend/app/admin/page.tsx:172-183 | a user is listed iff the search, the status filter and the role filter all accept them |
| UiAdminUsers.NoFilterListsEveryone | frontend/app/admin/page.tsx:172-183 | an empty search with both filters on "all" lists every user in order |
| UiAdminUsers.StatusFilterAgreesWithStats | frontend/app/admin/page.tsx:172-183 | the "banned" filter lists as many users as the banned statistic, "active" as many as the active one, and the "admin" role filter as many as the admins statistic |
| UiAdminUsers.BanToggle | frontend/app/admin/page.tsx:140-157 | a banned user gets the unban endpoint and any other the ban endpoint, for that user's id |
| UiAdminUsers.RoleChange | frontend/app/admin/page.tsx:117-127 | the set-role request carries the chosen user's id and new role, and a Bearer header whose token part is exactly the stored access token |
| UiAdminUsers.AdminRequestsAreFiltered | frontend/app/admin/page.tsx:117-157 | the ban, unban and set-role requests take the gateway's filtered user route |
| UiCampaignsBrowse.ParseSort | frontend/app/campaigns/page.tsx:151-164 | only "funded" is left unmodelled; any value other than the four named orders gives the featured-first default |
| UiCampaignsBrowse.BeforeTotal | frontend/app/campaigns/page.tsx:151-164 | any two campaigns are comparable under every order |
| UiCampaignsBrowse.BeforeTransitive | frontend/app/campaigns/page.tsx:151-164 | each order is transitive |
| UiCampaignsBrowse.SortSpec | frontend/app/campaigns/page.tsx:151-164 | the sorted list is in comparator order and is a permutation of the filtered list |
| UiCampaignsBrowse.FeaturedSortedFirst | frontend/app/campaigns/page.tsx:161-162 | under the default order every featured campaign precedes every non-featured one |
| UiCampaignsBrowse.Filtered | frontend/app/campaigns/page.tsx:142-149 | the filter never lengthens the list |
| UiCampaignsBrowse.FilteredMembers | frontend/app/campaigns/page.tsx:142-149 | a campaign is listed iff its title or description contains the term (ignoring case) and its category matches or is "All" |
| UiCampaignsBrowse.DisplayedSpec | frontend/app/campaigns/page.tsx:142-164 | the grid shows exactly the matching campaigns, each as often as listed, in the chosen order |
| UiCampaignsBrowse.Tab | frontend/app/campaigns/page.tsx:166-167 | a tab never lengthens the list |
| UiCampaignsBrowse.TabMembers | frontend/app/campaigns/page.tsx:166-167 | the featured and urgent tabs take the flagged campaigns of the whole list, ignoring search and category |
| UiCampaignsBrowse.Before | frontend/app/campaigns/page.tsx:151-164 | the comparator never asks to move a campaign past an equal one |
| UiCampaignsBrowse.Sort | frontend/app/campaigns/page.tsx:151-164 | the sorted list has the same campaigns, each as often, as the input |
| UiCampaignsBrowse.ShowsDaysLeft | frontend/app/campaigns/page.tsx:284 | the badge shows for at most 7 days left, including campaigns whose time has run out |
| UiCampaignCreate.TierOf | frontend/app/campaigns/create/page.tsx:121-128 | an added tier copies amount, title, description and quantity, defaults the delivery to "", and takes the clock reading as id |
| UiCampaignCreate.WithoutTier | frontend/app/campaigns/create/page.tsx:140-142 | removal never lengthens the list |
| UiCampaignCreate.WithoutTierMembers | frontend/app/campaigns/create/page.tsx:140-142 | removal keeps exactly the tiers with other ids |
| UiCampaignCreate.WithoutAbsentTier | frontend/app/campaigns/create/page.tsx:140-142 | removing an id no tier has changes nothing |
| UiCampaignCreate.AddThenRemove | frontend/app/campaigns/create/page.tsx:119-142 | removing a tier just added under a fresh clock reading restores the earlier list |
| UiCampaignCreate.WithoutIndex | frontend/app/campaigns/create/page.tsx:115-117 | only position i is dropped, the rest keep their order; an index out of range changes nothing |
| UiCampaignCreate.ImageUrls | frontend/app/campaigns/create/page.tsx:107-110 | one mock URL per file, in file order |
| UiCampaignCreate.CampaignForm.constructor | frontend/app/campaigns/create/page.tsx:58-81 | first step, no tiers, empty draft, no images, not submitting |
| UiCampaignCreate.CampaignForm.EditTier | frontend/app/campaigns/create/page.tsx:484-485 | typing changes only the draft |
| UiCampaignCreate.CampaignForm.AddIncentiveTier | frontend/app/campaigns/create/page.tsx:119-138 | a complete draft is appended after the earlier tiers and the draft reset; an incomplete one changes nothing |
| UiCampaignCreate.CampaignForm.RemoveTier | frontend/app/campaigns/create/page.tsx:140-142 | the tiers become `WithoutTier`; nothing else changes |
| UiCampaignCreate.CampaignForm.UploadImages | frontend/app/campaigns/create/page.tsx:103-113 | the new URLs are appended after the old images; no files, no change |
| UiCampaignCreate.CampaignForm.RemoveImage | frontend/app/campaigns/create/page.tsx:115-117 | the images become `WithoutIndex`; nothing else changes |
| UiCampaignCreate.CampaignForm.Previous | frontend/app/campaigns/create/page.tsx:645 | one step back, never below the first; the step stays among the four |
| UiCampaignCreate.CampaignForm.Next | frontend/app/campaigns/create/page.tsx:652 | one step on, never past the last; the step stays among the four |
| UiCampaignCreate.CampaignForm.Submit | frontend/app/campaigns/create/page.tsx:144-166 | the form is no longer submitting afterwards; the form data is untouched |
| UiCampaignCreate.Complete | frontend/app/campaigns/create/page.tsx:120 | the empty draft is never complete, and neither is a draft with amount 0 |
| UiCategories.Filtered | frontend/app/categories/page.tsx:278-282 | the filter never lengthens the list |
| UiCategories.FilteredMembers | frontend/app/categories/page.tsx:278-282 | a category is shown iff its name or description contains the term, ignoring case |
| UiCategories.FilteredCountBounded | frontend/app/categories/page.tsx:284 | the headline total is over all categories: the shown ones never add up to more |
| UiCategories.RoundQuotient | frontend/app/categories/page.tsx:286-289 | `Math.round(sum / n)`: the nearest integer to the quotient, halves rounded up |
| UiCategories.AvgSuccessRate | frontend/app/categories/page.tsx:286-289 | the average is defined exactly when there is a category |
| UiCategories.RoundWithin | frontend/app/categories/page.tsx:286-289 | rounding a quotient that lies in [lo, hi] stays in [lo, hi] |
| UiCategories.AvgWithinRange | frontend/app/categories/page.tsx:286-289 | the average success rate lies between the lowest and highest rate |
| UiCategories.TotalCampaigns | frontend/app/categories/page.tsx:284 | with non-negative counts the total is non-negative |
| UiCategories.TotalRaised | frontend/app/categories/page.tsx:285 | with non-negative amounts the total raised is non-negative |
| UiCategories.CategoriesPage.constructor | frontend/app/categories/page.tsx:275-276 | empty search, nothing selected |
| UiCategories.CategoriesPage.ClickCategory | frontend/app/categories/page.tsx:372-375 | clicking the selected card deselects it; clicking another selects that one |
| UiEditProfile.InitialData | frontend/app/edit-profile/page.tsx:49-59 | with a signed-in user the form starts with their name and email and their role (donor when they have none); with none, empty name and email and donor; the avatar is the user's when present and non-empty, otherwise the placeholder; no interests and empty extra fields |
| UiEditProfile.RemoveAll | frontend/app/edit-profile/page.tsx:90 | every occurrence of the interest is removed, so the list shrinks when it was there, and every other interest is kept |
| UiEditProfile.ToggleFlips | frontend/app/edit-profile/page.tsx:88-94 | toggling flips whether the interest is chosen and keeps every other interest |
| UiEditProfile.ToggleTwice | frontend/app/edit-profile/page.tsx:88-94 | choosing an interest and then un-choosing it restores the list |
| UiEditProfile.EmailExamples | frontend/app/edit-profile/page.tsx:105 | the pattern accepts "ana@mail.com" and rejects "ana@mail" and "ana @.com" |
| UiEditProfile.EmailLikeNotBlank | frontend/app/edit-profile/page.tsx:103-107 | an address matching the pattern is never blank, so "required" and "invalid" never both apply |
| UiEditProfile.Step1ErrorsSpec | frontend/app/edit-profile/page.tsx:96-107 | a name message iff the trimmed name is empty; "required" for an empty trimmed email, otherwise "invalid" iff the pattern fails |
| UiEditProfile.Step1ValidIff | frontend/app/edit-profile/page.tsx:96-111 | step 1 passes iff the name has a non-space character and the email matches the pattern |
| UiEditProfile.DashboardFor | frontend/app/edit-profile/page.tsx:168-175 | the admin dashboard iff the signed-in user is an admin, otherwise the user dashboard |
| UiEditProfile.ToggleInterest | frontend/app/edit-profile/page.tsx:88-94 | an interest not chosen is appended at the end; a chosen one is removed, every copy of it, shortening the list |
| UiEditProfile.EmailLike | frontend/app/edit-profile/page.tsx:105 | an address matching the pattern has an '@', a '.' and at least 5 characters |
| UiEditProfile.Step1Errors | frontend/app/edit-profile/page.tsx:96-107 | the name field only ever shows the name message, the email field never shows it, and no email message means the address matches the pattern |
| UiEditProfile.ProfileForm.constructor | frontend/app/edit-profile/page.tsx:43-59 | step 1, not saving, no errors, no message, the initial data for the signed-in user or for nobody |
| UiEditProfile.ProfileForm.Edit | frontend/app/edit-profile/page.tsx:279 | typing changes only the form data |
| UiEditProfile.ProfileForm.UploadAvatar | frontend/app/edit-profile/page.tsx:79-86 | a chosen file's mock URL replaces the avatar; no file, no change |
| UiEditProfile.ProfileForm.ToggleInterestOf | frontend/app/edit-profile/page.tsx:88-94 | the interests become `ToggleInterest` of the old ones; nothing else changes |
| UiEditProfile.ProfileForm.ValidateStep1 | frontend/app/edit-profile/page.tsx:96-111 | the step-1 messages are recorded, and the result is true iff the name is not blank and the email matches |
| UiEditProfile.ProfileForm.HandleNext | frontend/app/edit-profile/page.tsx:113-121 | 1→2 only with valid step-1 data, 2→3 always, nothing at 3; the step stays within 1..3 |
| UiEditProfile.ProfileForm.HandleBack | frontend/app/edit-profile/page.tsx:123-127 | one step back only above step 1; the step stays within 1..3 |
| UiEditProfile.ProfileForm.HandleSave | frontend/app/edit-profile/page.tsx:129-166 | invalid data returns to step 1 with no message and no redirect; valid data shows the message and redirects first-time users to their dashboard, others to the profile; not saving afterwards |
| UiSecurity.ValidIff | frontend/components/profile/SecurityContent.tsx:33-52 | the change proceeds iff a current password is given and the new one has at least 6 characters and equals its confirmation |
| UiSecurity.AllMessagesTogether | frontend/components/profile/SecurityContent.tsx:35-47 | the three checks are independent: all three messages can show at once |
| UiSecurity.Validate | frontend/components/profile/SecurityContent.tsx:33-47 | the current-password field only shows its own message; no new-password message means at least 6 characters; the confirm message shows exactly when the two new passwords differ |
| UiSecurity.PasswordForm.constructor | frontend/components/profile/SecurityContent.tsx:13-24 | not saving, empty fields, no errors, no message |
| UiSecurity.PasswordForm.Edit | frontend/components/profile/SecurityContent.tsx:89 | typing changes only the password fields |
| UiSecurity.PasswordForm.HandlePasswordChange | frontend/components/profile/SecurityContent.tsx:26-71 | the messages are the validation's; with any message the fields stay and no success is shown; otherwise the fields are cleared and success is shown; not saving afterwards |
| UiRegister.Check | frontend/app/register/page.tsx:38-50 | no error iff the passwords match and have at least 6 characters; a mismatch is reported first |
| UiRegister.RegisteredUserDashboard | frontend/app/register/page.tsx:52-57 | registering passes no role, so the new user has none and the navigation bar links the donor dashboard |
| UiRegister.RegisterForm.constructor | frontend/app/register/page.tsx:25-32 | empty fields and no error |
| UiRegister.RegisterForm.EditField | frontend/app/register/page.tsx:94-97 | typing in a field clears the error |
| UiRegister.RegisterForm.HandleSubmit | frontend/app/register/page.tsx:38-67 | a failed check shows its message and leaves the signed-in state untouched; otherwise the user is registered with email, name and no role and sent to "/user/dashboard" |

## Left out

- The registration form's initial `role: "user"` (frontend/app/register/page.tsx:30) is never passed to `register`, so it is not modelled; a signed-in user's role is one of donor, organizer or admin, or absent.
- Floating-point values are not modelled. `goal`, `amount` and `raised` are integers; the service does no arithmetic on them. Progress percentages, `toFixed`/`toLocaleString` formatting and the category success-rate percentage display are left out.
- UiCampaignsBrowse.ParseSort: the "funded" order compares floating-point ratios, so it yields `None` and is not modelled.
- UiCampaignsBrowse.SortSpec: `localeCompare` on ids is modelled as code-point order. The sort is modelled as an insertion sort. Stability, which `Array.prototype.sort` guarantees, is not stated.
- Text.Lower: case folding covers ASCII letters only. The white space set is the ASCII separators plus the no-break space. Lengths count characters, not UTF-16 code units.
- CampaignStore.Store.Create: tier keys come from the counter `nextTierId`, which never goes back. SQLite would give a new tier one more than the largest tier key in use, so after an update that replaces the newest tiers their keys could be handed out again; whether the old tiers are removed before the new ones are inserted depends on the ORM's flush order, which is not modelled. Campaign and notification keys do follow SQLite's rule.
- CampaignStore.Store.Update: an update that sets a field to an explicit `null` is not modelled. `CampaignUpdate` is not defined in the campaign schemas, so its fields are assumed: the creation fields, the moderation flags and the note, all optional. Because `crud/campaign.py:4` imports that missing name, importing the CRUD module from `main.py:12` fails and the campaign service as written does not start; the model describes the service as if the import succeeded. This also leaves the administrators' campaign tabs empty, independently of the finding below.
- CampaignStore.Store.Delete: the cascade is modelled by tiers living inside their campaign's row. The ORM session, commit and refresh become one atomic update of the table.
- GatewayFilter.Apply: JWT signature checking and parsing are the parameter `verify`. A token without an `id` claim, which would yield a null header value, is not modelled. Header names are compared exactly, without HTTP case-insensitivity. Why a downstream call fails is not modelled: `Respond` takes it as the flag `downstreamFails`.
- The notification and campaign services take `created_at` from `utcnow()` as a parameter. The front end's `Date.now()` ids and timestamps are parameters too.
- Network fetches are outcomes passed in as parameters (`hasToken`, `requestOk`), and so are `router.push` targets, `alert`s, toasts and timers; nothing is awaited.
  - The success message that SecurityContent clears after 3 seconds is not modelled.
  - The save delay and the 1.5-second redirect of the profile wizard are not modelled.
  - The admin pages' admin-verification effect and their fetches of the user list are not modelled.
- The mock campaign and category data arrays are not modelled; the functions take any list.
- The user service, the payment service, service registration, CORS and the legacy router are not part of this model.

## Findings

| source | as written | input that shows it | evidently intended | confidence | as-written member | corrected member |
|---|---|---|---|---|---|---|
| frontend/app/admin/campaigns/page.tsx:141-147 | The tabs test `c.reviewed` and `c.approved` on the entries of `GET /campaigns/`. The response is serialised through `CampaignRead` (backend/campaign-service/schemas/campaign.py:28-40), which has neither field, so both are `undefined` and every tab stays empty. | any stored list, e.g. one just-created campaign (pending in the database) | the response carries `reviewed`, `approved` and `note`, so each campaign appears in exactly one tab | high; not executed | UiAdminCampaigns.ServedListFillsNoTab | UiAdminCampaigns.CorrectedTabs |
| backend/api-gateway/src/main/java/org/projectbakso/apigateway/filter/AuthenticationFilter.java:33-39 | The bypass uses `getPath().contains(endpoint)`, so any path that contains a public endpoint skips authentication. | `PUT /campaigns/1/api/users/auth/login` with no Authorization header is forwarded | only the public endpoints themselves, or paths below them, skip authentication | medium; not executed | GatewayFilter.BypassByContainment | GatewayFilter.CorrectedBypassOnlyUnderAuth |
| backend/api-gateway/src/main/java/org/projectbakso/apigateway/filter/AuthenticationFilter.java:67-73 | `ServerRequest.from(request).header(name, value)` adds a value after any the client sent. The services read the first value. | `POST /campaigns/` with a valid token for "alice" and a client header `X-User-Id: bob`: the first X-User-Id is "bob" | the gateway's identity headers replace the client's | medium; not executed | GatewayFilter.SpoofedIdentityReachesService | GatewayFilter.CorrectedIdentityIsVerified |
