# GiftFlare marketplace front end: a Dafny model of its core rules

This project models the client-side logic of a gift marketplace built on a hosted
Postgres backend (Supabase) and proves properties of that model in Dafny.

- **Connection monitor** (`connection.dfy`, module `Connection`). It is the centre of the model. It holds the status (connecting, connected, failed) and the attempt counter with its budget of three. It also holds the 60 s auto-retry interval, the 2 s fast retries and the 500 ms startup probe. The health check and the sweep over the additional tables are modelled too.
  - A pure record `Monitor` and its transition functions form the specification. The class `ConnectionMonitor` keeps the same state in fields, and each method is proved to follow its transition function while preserving the timer invariant.
  - `testConnection` is asynchronous. It counts its attempt before the first `await`. It is therefore split into `BeginProbe` and `CompleteProbe(outcome)`, and other events may be interleaved between the two.
- **Upload widget** (`file_upload.dfy`). It models the size limits, the MIME allow-list, the first file of a drop or of the file input, and removing the file.
- **Authentication context** (`auth.dfy`). It models:
  - the default display name;
  - email normalisation;
  - the profile row written at registration;
  - the decision tree of `fetchUserProfile`;
  - the provider's `user`/`isLoading` state across the initial session, auth events, login, registration and logout.
- **Page frame** (`layout.dfy`). It models role-based navigation, the active-link test and header icon visibility.
- **Seller dashboard** (`seller_dashboard.dfy`). It models:
  - the seller's products and their statistics;
  - instant-delivery eligibility;
  - the order filter and the sales analytics;
  - the custom-question editor;
  - the payload of a new product;
  - the status styles.
- **Admin dashboard** (`admin_dashboard.dfy`). It models:
  - the moderation queue;
  - the notification fan-out;
  - the storage file name;
  - the hero-video form, support replies and the stat cards.
- **Product page** (`product_detail.dfy`). It models the custom answers, the star string, the displayed price and the review form.
- **Helpers.**
  - `seqs.dfy` holds an optional value, `filter`/`some`/`reduce` and the sub-sequence relation.
  - `text.dfy` holds JavaScript's `split`/`join`, `trim`, ASCII `toLowerCase` and decimal rendering.
  - `catalog.dfy` holds the product, city and order records.

Backend answers (queries, inserts, auth calls, storage uploads) are parameters of the operations that use them. So are clocks (`Date.now()`, ISO timestamps) and the month label of a date.

The code behaves as follows, which may surprise, and the model follows it:

- A successful probe does **not** reset the attempt counter. Only `reconnect` does (`Connection.SuccessKeepsCount`).
- `reconnect` cancels no timer. A 2 s retry scheduled before a reconnect still fires afterwards. So the auto-retry interval and a fast retry can be armed at once (`Connection.BothTimersArmedReachable`). The counter can also pass the budget of three while the status is still connecting (`Connection.CounterPassesBudgetReachable`). The budget bounds one retry chain (`Connection.ChainBounded`), not the probes overall.
- `reconnect` sets the status to connecting directly and does not go through `updateConnectionStatus`. An armed auto-retry interval therefore stays armed during the new chain. It only acts when the status is failed.

## Model

| member | source | states |
|---|---|---|
| Connection.Initial | src/lib/supabase.ts:37-40 | the monitor starts connecting with no attempts, no interval and no retry pending; the 500 ms startup probe is scheduled |
| Connection.UpdateStatus | src/lib/supabase.ts:44-59 | the status is stored; failed (re)arms exactly one interval, any other status disarms it; nothing else changes |
| Connection.BeginProbeStep | src/lib/supabase.ts:62-64 | a probe counts exactly one attempt before any backend call and changes neither status nor timers |
| Connection.BackoffStep | src/lib/supabase.ts:70-76 | below the budget one 2 s retry is scheduled and the status is left alone; at the budget the monitor fails |
| Connection.CompleteProbeStep | src/lib/supabase.ts:67-109 | a transient failure schedules one retry while attempts < 3 (status unchanged), else fails with the interval armed; 42P01 fails at once with no retry whatever the count; success connects and disarms the interval; the counter never changes here |
| Connection.ProbeStep | src/lib/supabase.ts:62-110 | a whole probe raises the counter by exactly one |
| Connection.FireStartup | src/lib/supabase.ts:135-137 | the startup timeout is used up and starts one probe |
| Connection.ConsumeFastRetry | src/lib/supabase.ts:72 | firing a 2 s timeout uses up exactly one scheduled retry and changes neither status nor counter |
| Connection.FireFastRetry | src/lib/supabase.ts:72 | a 2 s timeout is used up and starts one probe |
| Connection.ResetForReconnect | src/lib/supabase.ts:141-142 | reconnect first sets attempts to 0 and the status to connecting, leaving every timer as it was |
| Connection.ReconnectStep | src/lib/supabase.ts:140-144 | after reconnect returns, the status is connecting and exactly one attempt of the new probe is counted; no timer is cancelled |
| Connection.Tick | src/lib/supabase.ts:46-51 | an interval tick reconnects exactly when the status is failed and otherwise changes nothing |
| Connection.InvPreserved | src/lib/supabase.ts:44-59 | every transition keeps the invariant: failed implies an armed interval, connected implies none |
| Connection.HealthOf | src/lib/supabase.ts:147-158 | healthy iff the query returned no error and did not throw; the error reported is the query's error or the thrown value |
| Connection.RetryOnlyUnderBudget | src/lib/supabase.ts:70 | a probe schedules a retry only when its attempt number is below 3 |
| Connection.ChainBounded | src/lib/supabase.ts:39 | a retry chain runs at most 3 − attempts probes |
| Connection.ChainFromResetBounded | src/lib/supabase.ts:141 | from a reset counter a chain runs at most maxAttempts = 3 probes |
| Connection.ChainExhausts | src/lib/supabase.ts:101-108 | with only transient failures a chain runs exactly 3 − attempts probes and ends failed with the interval armed |
| Connection.SchemaMissingFailsFast | src/lib/supabase.ts:85-88 | a 42P01 answer ends the chain after one probe, failed, with no retry scheduled |
| Connection.SuccessKeepsCount | src/lib/supabase.ts:98-99 | success connects and disarms the interval but keeps the counter |
| Connection.BothTimersArmedReachable | src/lib/supabase.ts:140-144 | a retry pending from before a reconnect survives the new chain's failure: interval and fast retry armed together |
| Connection.CounterPassesBudgetReachable | src/lib/supabase.ts:140-144 | leftover retries push the counter to 4 while the status is connecting |
| Connection.ConnectionMonitor.constructor | src/lib/supabase.ts:37-40 | the fields start in the initial state, invariant established |
| Connection.ConnectionMonitor.GetConnectionStatus | src/lib/supabase.ts:42 | returns the status; modifies nothing |
| Connection.ConnectionMonitor.UpdateConnectionStatus | src/lib/supabase.ts:55-59 | the fields afterwards are UpdateStatus of the fields before; invariant kept |
| Connection.ConnectionMonitor.BeginProbe | src/lib/supabase.ts:64 | the fields follow BeginProbeStep; invariant kept |
| Connection.ConnectionMonitor.Backoff | src/lib/supabase.ts:70-76 | the fields follow BackoffStep; invariant kept |
| Connection.ConnectionMonitor.CompleteProbe | src/lib/supabase.ts:67-109 | the fields follow CompleteProbeStep for the backend's answer; invariant kept |
| Connection.ConnectionMonitor.Probe | src/lib/supabase.ts:62-110 | the fields follow ProbeStep; invariant kept |
| Connection.ConnectionMonitor.StartupTimerFires | src/lib/supabase.ts:135-137 | the fields follow FireStartup; invariant kept |
| Connection.ConnectionMonitor.FastRetryFires | src/lib/supabase.ts:72 | the fields follow FireFastRetry; invariant kept |
| Connection.ConnectionMonitor.Reconnect | src/lib/supabase.ts:140-144 | the fields follow ReconnectStep; invariant kept |
| Connection.ConnectionMonitor.AutoRetryTick | src/lib/supabase.ts:46-51 | the fields follow Tick; invariant kept |
| Connection.ConnectionMonitor.HealthCheck | src/lib/supabase.ts:147-158 | healthy iff the query answered without error; modifies nothing |
| Connection.ConnectionMonitor.SweepAdditionalTables | src/lib/supabase.ts:113-132 | one report per table, in the listed order, accessible iff that table's query answered without error; modifies nothing |
| FileUpload.AcceptedTypes | src/components/FileUpload.tsx:22-24 | the allow-list string of the kind, starting with `image/` for images and `video/` for videos |
| FileUpload.MaxSize | src/components/FileUpload.tsx:26 | 5·1024·1024 bytes for images and 50·1024·1024 for videos |
| FileUpload.Check | src/components/FileUpload.tsx:28-38 | too large iff size > limit (the limit itself passes); accepted iff within the limit and the type is an entry of the split allow-list; an accepted file is the file given |
| FileUpload.ImageTypesListed | src/components/FileUpload.tsx:22-23 | the image allow-list splits into exactly jpeg, png, webp, jpg |
| FileUpload.VideoTypesListed | src/components/FileUpload.tsx:24 | the video allow-list splits into exactly mp4, webm, mov |
| FileUpload.AcceptedExactly | src/components/FileUpload.tsx:22-38 | a file is accepted iff size ≤ 5·1024·1024 (image) or 50·1024·1024 (video) and its type is exactly one listed entry |
| FileUpload.OversizedFailsOnSize | src/components/FileUpload.tsx:29-38 | an oversized file of a wrong type is refused for its size |
| FileUpload.FirstFile | src/components/FileUpload.tsx:53-56 | the first file exactly when the list is non-empty |
| FileUpload.Uploader.constructor | src/components/FileUpload.tsx:19-20 | no preview, not dragging, no selection made |
| FileUpload.Uploader.HandleFileSelect | src/components/FileUpload.tsx:28-48 | the verdict is Check; an accepted file is handed on unchanged exactly once, a refused one not at all |
| FileUpload.Uploader.HandleDrop | src/components/FileUpload.tsx:50-58 | dragging stops; only the first dropped file is considered; an empty drop does nothing |
| FileUpload.Uploader.HandleFileInput | src/components/FileUpload.tsx:60-65 | only the first chosen file is considered; a null or empty list does nothing |
| FileUpload.Uploader.RemoveFile | src/components/FileUpload.tsx:67-73 | reports null, clears the preview and empties a mounted input |
| FileUpload.Uploader.DragOver | src/components/FileUpload.tsx:123-126 | dragging starts |
| FileUpload.Uploader.DragLeave | src/components/FileUpload.tsx:127 | dragging stops |
| FileUpload.Uploader.PreviewLoaded | src/components/FileUpload.tsx:44-46 | the read data URL becomes the preview |
| Auth.OrUndefined | src/contexts/AuthContext.tsx:143 | an empty or absent text becomes absent, any other is kept |
| Auth.BeforeAt | src/contexts/AuthContext.tsx:108 | the text before the first `@` (all of it when there is none) |
| Auth.DefaultName | src/contexts/AuthContext.tsx:107-109 | never empty; the metadata name if non-empty, else the text before the first `@` if non-empty, else `User` |
| Auth.DefaultNameIsUser | src/contexts/AuthContext.tsx:107-109 | the name is `User` iff there is no metadata name and the email is absent, empty or starts with `@` |
| Auth.FallbackUser | src/contexts/AuthContext.tsx:186-193 | a fallback user has the auth id, the email or `''`, the default name, role buyer, city Mumbai, not verified |
| Auth.ProfileUser | src/contexts/AuthContext.tsx:167-176 | a loaded profile keeps id, name, role and verification; empty city or business texts become absent |
| Auth.DefaultProfileRow | src/contexts/AuthContext.tsx:113-119 | the inserted row has the auth id, the default name, role buyer, city Mumbai, not verified |
| Auth.ResolveProfile | src/contexts/AuthContext.tsx:95-193 | an insert happens iff the error code is PGRST116; a loaded row gives its user; a row that comes back from the insert gives its user; other errors, insert errors and throws give the fallback; no row and no error keeps the user |
| Auth.ResolvedWithoutRowIsFallback | src/contexts/AuthContext.tsx:128-163 | whenever a user is set without a row, it has the auth id, the email or `''`, role buyer, city Mumbai, not verified |
| Auth.NormaliseEmail | src/contexts/AuthContext.tsx:205 | the trimmed address, character by character, with each ASCII capital lowered: same length as the trim, no white space at either end and no upper-case ASCII letter |
| Auth.NormaliseEmailIdempotent | src/contexts/AuthContext.tsx:254 | normalising a normalised email changes nothing |
| Auth.RegistrationProfile | src/contexts/AuthContext.tsx:280-292 | is_verified iff the role is admin; mobile and verification document only for sellers; city Mumbai when none is passed |
| Auth.RegisterSucceeded | src/contexts/AuthContext.tsx:268-305 | registration succeeds iff the sign-up returned a user and the profile insert succeeded |
| Auth.AuthProvider.constructor | src/contexts/AuthContext.tsx:40 | no user, loading, mounted |
| Auth.AuthProvider.FetchUserProfile | src/contexts/AuthContext.tsx:91-197 | the user becomes ResolveProfile's user (or stays); the insert sent is ResolveProfile's; loading always ends |
| Auth.AuthProvider.GetInitialSession | src/contexts/AuthContext.tsx:43-65 | a found session user is fetched while mounted; otherwise loading ends if mounted and the user is untouched |
| Auth.AuthProvider.HandleAuthEvent | src/contexts/AuthContext.tsx:70-83 | nothing after unmount; SIGNED_OUT clears the user and loading; SIGNED_IN with a user fetches the profile; TOKEN_REFRESHED changes nothing |
| Auth.AuthProvider.Unmount | src/contexts/AuthContext.tsx:85-88 | the mounted flag is cleared |
| Auth.AuthProvider.Login | src/contexts/AuthContext.tsx:199-237 | the email is sent trimmed and lower-cased; success iff the answer carries a user; loading ends |
| Auth.AuthProvider.Register | src/contexts/AuthContext.tsx:239-309 | the email is sent normalised; the registration row is written iff the sign-up returned a user; loading ends |
| Auth.AuthProvider.Logout | src/contexts/AuthContext.tsx:311-326 | the user is cleared iff sign-out returned no error |
| Layout.BuyerNavigation | src/components/Layout.tsx:35-41 | Home, Shop, Gift Suggester, Hamper Builder in that order, then Orders last iff signed in |
| Layout.SellerNavigation | src/components/Layout.tsx:44-47 | exactly Dashboard (`/seller/dashboard`) then Orders |
| Layout.AdminNavigation | src/components/Layout.tsx:49-52 | exactly Dashboard (`/admin/dashboard`) then Orders |
| Layout.Navigation | src/components/Layout.tsx:54-61 | buyer links without a user; exactly Dashboard and Orders for sellers and admins, each with its own dashboard; buyer links for buyers |
| Layout.OrdersLinkIffSignedIn | src/components/Layout.tsx:41-51 | `/orders` is among the links iff a user is signed in |
| Layout.StorefrontOnlyForBuyers | src/components/Layout.tsx:36-52 | visitors and buyers get the storefront links first; sellers and admins get none of them |
| Layout.IsAnyNavActive | src/components/Layout.tsx:66 | true iff the pathname equals some link's href |
| Layout.ShowCart | src/components/Layout.tsx:111 | the rule itself, written as its definition: the cart shows iff there is no user or the user is a buyer (what follows from it is in HeaderIcons) |
| Layout.ShowNotifications | src/components/Layout.tsx:109 | the rule itself, written as its definition: the notification centre shows iff there is a user (what follows from it is in HeaderIcons) |
| Layout.HeaderIcons | src/components/Layout.tsx:153-155 | both icons show exactly for buyers; whoever does not see the cart sees notifications |
| SellerDashboard.SellerProducts | src/pages/SellerDashboardPage.tsx:47 | exactly the products whose seller is the user, in order, each as often as in the input; none without a user |
| SellerDashboard.StatsOf | src/pages/SellerDashboardPage.tsx:48-55 | total, approved, pending and rejected count the seller's products by status; revenue sums the approved ones' prices |
| SellerDashboard.StatsBounded | src/pages/SellerDashboardPage.tsx:49-52 | approved + pending + rejected ≤ total |
| SellerDashboard.RevenueOfApprovedOnly | src/pages/SellerDashboardPage.tsx:54 | revenue is the price sum over exactly the seller's approved products |
| SellerDashboard.CanOfferInstantDelivery | src/pages/SellerDashboardPage.tsx:57-58 | true iff the user has a city and some active delivery city has that name |
| SellerDashboard.ProductIds | src/pages/SellerDashboardPage.tsx:73 | one id per product, in the same order |
| SellerDashboard.SellerOrders | src/pages/SellerDashboardPage.tsx:72-75 | an order is kept iff one of its items is a seller product, as often as it occurs; kept orders stay in their order |
| SellerDashboard.FetchSellerAnalytics | src/pages/SellerDashboardPage.tsx:84-109 | the loops build exactly the history, its quantity total and its month totals |
| SellerDashboard.AddOrderItems | src/pages/SellerDashboardPage.tsx:93-106 | one order's items append exactly that order's seller rows, and the total and month totals stay those of the grown history |
| SellerDashboard.TotalSoldIsSold | src/pages/SellerDashboardPage.tsx:93-95 | totalSold is the sum of the quantities of the seller's items over all orders |
| SellerDashboard.HistoryMembership | src/pages/SellerDashboardPage.tsx:98-104 | a history row exists iff it is built from a seller item of some order |
| SellerDashboard.MonthTotalsSum | src/pages/SellerDashboardPage.tsx:96-97 | the monthwise values add up to totalSold |
| SellerDashboard.MonthTotalsKeys | src/pages/SellerDashboardPage.tsx:96-97 | the months listed are exactly the months of the history rows |
| SellerDashboard.SetQuestion | src/pages/SellerDashboardPage.tsx:144-150 | editing index i keeps the length and changes only index i |
| SellerDashboard.AddQuestion | src/pages/SellerDashboardPage.tsx:152-154 | appends one `''` and keeps the rest |
| SellerDashboard.KeepOthersDrops | src/pages/SellerDashboardPage.tsx:157 | the index filter drops exactly the matching position, or nothing |
| SellerDashboard.RemoveQuestion | src/pages/SellerDashboardPage.tsx:156-158 | removes exactly index i; an index out of range changes nothing |
| SellerDashboard.AddThenRemove | src/pages/SellerDashboardPage.tsx:152-158 | removing the question just added restores the list |
| SellerDashboard.SubmittedQuestions | src/pages/SellerDashboardPage.tsx:191 | the questions with a non-space character, in order and with every repeat kept, when customisable; none otherwise |
| SellerDashboard.BuildPayload | src/pages/SellerDashboardPage.tsx:160-192 | none without a user or an image; otherwise pending, the seller's id, city or Mumbai, instant delivery only if ticked and offerable, tags that join back to the lower-cased category, the submitted questions |
| SellerDashboard.AfterSubmit | src/pages/SellerDashboardPage.tsx:194-208 | success clears the form, questions and files and closes the editor; failure keeps them |
| SellerDashboard.StatusIconOf | src/pages/SellerDashboardPage.tsx:217-226 | the check icon iff approved, the cross iff rejected |
| SellerDashboard.StatusColor | src/pages/SellerDashboardPage.tsx:228-237 | green iff approved, red iff rejected, yellow for every other status |
| SellerDashboard.StatusFallsThroughToPending | src/pages/SellerDashboardPage.tsx:222-236 | every other status is styled as pending |
| AdminDashboard.PendingProducts | src/pages/AdminDashboardPage.tsx:95 | exactly the pending products, in order, each as often as in the input |
| AdminDashboard.RowActions | src/pages/AdminDashboardPage.tsx:439-444 | approve and reject are offered iff the product is pending |
| AdminDashboard.ActionsExactlyOnQueue | src/pages/AdminDashboardPage.tsx:439 | a listed product has actions iff it is in the pending queue |
| AdminDashboard.TargetRole | src/pages/AdminDashboardPage.tsx:305-316 | all means no role filter, buyers role buyer, sellers role seller |
| AdminDashboard.Selected | src/pages/AdminDashboardPage.tsx:309-315 | the query's rows are the profiles of the target role (all for everyone), in order, each as often as in the table |
| AdminDashboard.TargetIds | src/pages/AdminDashboardPage.tsx:311 | no data gives no ids; otherwise one id per row, in order |
| AdminDashboard.BuildNotifications | src/pages/AdminDashboardPage.tsx:319-325 | one notification per id, same order, with the form's type, title and message, sent_by admin, and row i stamped with the i-th clock reading |
| AdminDashboard.NotificationsReachSelected | src/pages/AdminDashboardPage.tsx:305-325 | every profile of the target audience gets a notification, in the query's order |
| AdminDashboard.UploadFileName | src/pages/AdminDashboardPage.tsx:209-210 | the name is exactly `prefix_<now>.<ext>`, where `ext` is the last dot-segment of the original name (the whole name when it has no dot); its own last dot-segment is that `ext` |
| AdminDashboard.LastPieceAfterSeparator | src/pages/AdminDashboardPage.tsx:209 | the last dot-segment of `a.b` is that of `b` |
| AdminDashboard.EditForm | src/pages/AdminDashboardPage.tsx:283-296 | the form takes all eight fields of the video |
| AdminDashboard.FormToSave | src/pages/AdminDashboardPage.tsx:232 | uploaded URLs replace the form's, everything else is the form |
| AdminDashboard.EditThenSaveUnchanged | src/pages/AdminDashboardPage.tsx:232-285 | editing then saving without new files writes the video's own fields back |
| AdminDashboard.SupportReplyAllowed | src/pages/AdminDashboardPage.tsx:353 | the guard: a ticket is selected and the trimmed message is not empty; a reply that passes has a ticket and a non-empty message |
| AdminDashboard.SupportReplyGuard | src/pages/AdminDashboardPage.tsx:353 | a reply passes the guard iff a ticket is selected and the message has a non-space character |
| AdminDashboard.ProfileQuery | src/pages/AdminDashboardPage.tsx:305-316 | no data when the table gives none; otherwise the table's profiles of the target audience, as Selected gives them: in order and with every repeat |
| AdminDashboard.StatsOf | src/pages/AdminDashboardPage.tsx:392-397 | totals of products, pending products, videos and active cities; each count at most its list |
| AdminDashboard.ShownVideos | src/pages/AdminDashboardPage.tsx:504 | the first min(3, n) videos |
| AdminDashboard.AdminPanel.constructor | src/pages/AdminDashboardPage.tsx:67-81 | the video form empty with is_active true and order_index 1; the notification form system/all |
| AdminDashboard.AdminPanel.EditVideo | src/pages/AdminDashboardPage.tsx:283-296 | the form takes the video's fields, the video is being edited, the form shows |
| AdminDashboard.AdminPanel.SelectVideoFile | src/pages/AdminDashboardPage.tsx:532 | the chosen video file becomes the pending one |
| AdminDashboard.AdminPanel.SelectThumbnailFile | src/pages/AdminDashboardPage.tsx:534 | the chosen thumbnail becomes the pending one |
| AdminDashboard.AdminPanel.CloseVideoForm | src/pages/AdminDashboardPage.tsx:546 | the Cancel button (and the close button of line 521, which does the same) hides the form, editing stops and both pending files are dropped |
| AdminDashboard.AdminPanel.SubmitVideo | src/pages/AdminDashboardPage.tsx:208-263 | each chosen file is uploaded under UploadFileName, the video first and the thumbnail only if the video's upload did not throw; a throwing upload saves nothing; otherwise the saved form is FormToSave with the uploaded URLs, an update of the edited id or an insert; a successful write resets the form, both files and the editing state and leaves no upload flag raised by this call; a throw or failed write keeps the form and files and drops both upload flags |
| AdminDashboard.AdminPanel.SendNotification | src/pages/AdminDashboardPage.tsx:298-345 | the query carries TargetRole's role filter; the notifications sent are built from the ids of ProfileQuery's answer, one clock reading per row; the form resets only after a successful insert |
| AdminDashboard.AdminPanel.SendSupportMessage | src/pages/AdminDashboardPage.tsx:352-368 | nothing without a ticket or with a blank message; the message goes out as typed; the draft clears unless the send threw |
| ProductDetail.InitialAnswers | src/pages/ProductDetailPage.tsx:48 | one `''` per custom question, none without questions |
| ProductDetail.ChangeAnswer | src/pages/ProductDetailPage.tsx:72-74 | keeps the length and replaces only entry idx; an index out of range changes nothing |
| ProductDetail.ChangeAnswerUndo | src/pages/ProductDetailPage.tsx:72-74 | writing back the old text restores the list |
| ProductDetail.Stars | src/pages/ProductDetailPage.tsx:168 | for 0 ≤ rating ≤ 5, five characters: rating filled stars then empty ones; no string otherwise |
| ProductDetail.StarsCount | src/pages/ProductDetailPage.tsx:168 | exactly rating filled and 5 − rating empty stars |
| ProductDetail.DisplayPrice | src/pages/ProductDetailPage.tsx:93-96 | above 1000 the price divided by 100; 1000 and below unchanged |
| ProductDetail.DisplayPriceBounds | src/pages/ProductDetailPage.tsx:93-96 | a positive price is never shown larger, and a converted one stays above 10 |
| ProductDetail.SubmitReview | src/pages/ProductDetailPage.tsx:76-90 | nothing without a user; otherwise the review row is sent; when the insert answers (even with an error) the form resets to `''` and 5 and submitting ends; when it throws the draft is kept and submitting stays true |
| Text.Split | src/components/FileUpload.tsx:34 | at least one piece, none containing the separator |
| Text.JoinSplit | src/contexts/AuthContext.tsx:108 | joining the pieces of a split gives the string back |
| Text.SplitJoin | src/components/FileUpload.tsx:34 | splitting a join of separator-free pieces gives the pieces back |
| Text.LastPieceSuffix | src/pages/AdminDashboardPage.tsx:209 | the last piece is a suffix after the last separator, or the whole string |
| Text.Trim | src/pages/SellerDashboardPage.tsx:191 | trim removes only leading and trailing white space and leaves none at the ends |
| Text.TrimEmpty | src/pages/AdminDashboardPage.tsx:353 | a string trims to `''` iff it is all white space |
| Text.ToLower | src/contexts/AuthContext.tsx:205 | same length, character-wise lowering, no upper-case ASCII left |
| Text.DecimalRoundTrip | src/pages/AdminDashboardPage.tsx:210 | the rendered timestamp reads back as the number |
| Seqs.Filter | src/pages/SellerDashboardPage.tsx:47 | filter keeps exactly the elements satisfying the predicate, each as many times as it occurs, and drops all others |
| Seqs.FilterIsSubsequence | src/pages/SellerDashboardPage.tsx:73 | filter keeps the original order |
| Seqs.Any | src/pages/SellerDashboardPage.tsx:58 | some is true iff an element satisfies the predicate |

## Left out

- Backend calls: all Supabase queries, inserts, updates, deletes, auth calls, storage uploads and public URLs. Each is a parameter holding its possible answers. The model does not describe what the backend stores.
- Real timers: `setTimeout`/`setInterval` become events (`StartupTimerFires`, `FastRetryFires`, `AutoRetryTick`) that the caller may fire in any order. Durations appear only as constants. Overlapping chains are modelled as interleavings, not as concurrency.
- Connection.ConnectionMonitor.SweepAdditionalTables: it is modelled as its own call. The sweep that a successful probe starts is not chained to `CompleteProbe`, because it touches no monitor state.
- The caller-side reconcile in src/components/ConnectionStatus.tsx: at line 45 it sets the status to connected iff `healthy`. It is part of a 5 s UI polling loop and is not modelled.
- src/pages/HomePage.tsx is not part of this model. It is presentational, with one featured-products filter.
- Rendering: JSX, animations, CSS classes beyond the status styles, and `toast`/`alert`/`console` output.
- `Math.random` view counts: left out of `SellerDashboard.StatsOf`.
- `Date`/`toLocaleString`: the month label is a function parameter and timestamps are parameters. The notification fan-out takes one clock reading per row, and each storage upload takes its own `Date.now()`.
- The per-field `onChange` edits of the hero-video form are not modelled. Each one replaces a single field of `videoForm`.
- `parseInt`/`parseFloat`: their results are parameters of `SellerDashboard.BuildPayload`.
- `URL.createObjectURL` and `FileReader`: the object URLs and the preview's data URL are parameters.
- ProductDetail.DisplayPrice: it works on `real`. The rounding and formatting of `toLocaleString` are not modelled.
- `handleDeleteProduct` in the seller dashboard is not modelled. It is backend plumbing that refers to identifiers the page does not declare.
- Text.ToLower: lowers ASCII letters only. Unicode case mapping is not modelled, so addresses with non-ASCII capitals keep them.
- Text.IsSpace: covers the ECMAScript WhiteSpace and LineTerminator characters, with the Unicode space separators listed explicitly.
- The mobile menu toggle in src/components/Layout.tsx (`isMenuOpen`), the tabs, the ticket, order and theme handlers of the admin dashboard, and the fetch effects of the pages: UI state or backend plumbing.
- The registration sign-up metadata (the `options.data` object) is not modelled. Only the profile row is.
- `handleProductApproval`, the delivery-city toggle and the theme update of the admin dashboard: they forward to backend updates and are not modelled.
- ProductDetail.SubmitReview: `reviewSubmitting` is only a result field. The insert is modelled as either answering (whatever the answer) or throwing.
