# A model of the ordering core of a Telegram food-delivery bot

The bot sells dishes read from a Google spreadsheet. There is one sheet per
category, and one row per dish.

- A user browses the categories by typing their names on a reply keyboard.
- They add dishes to an in-memory cart with inline buttons, and manage the
  cart (delete one item, clear it, go back).
- They check out through a five-step conversation: name, phone, address,
  comment, and payment method.
- Cash and online payments notify the operator chat at once and archive the
  cart as the user's "last order".
- A QR payment instead keeps the composed order pending. It is sent to the
  operator only when the user confirms having paid. A reminder job and a
  timeout job are queued meanwhile.
- Between the late hour and the early hour (22:00 to 10:00 Moscow time by
  default) only QR payment is offered.

The model is purely functional:

- Every handler is a function from the user's record (`context.user_data`)
  and the cart store to a new record, a new store and a log of effects.
  Effects are messages to the user, messages to the operator, message
  deletions, and jobs put on or taken off the queue.
- The Moscow hour, the two timestamps, the ids Telegram assigns to sent
  messages, the payment link, the environment, and the sheet contents are
  all inputs.
- `Bot.Route` dispatches an update the way the application's handler list
  does, with `_schedule_qr_jobs` as written. It runs a per-user machine
  holding the conversation phase, the record, the store, the set of jobs
  live on the queue, and the next fresh job id. `Bot.RouteCorrected` is the
  same machine with the corrected scheduling described under Findings.

| module (file) | models |
|---|---|
| `Results` (results.dfy) | Option / Result |
| `Text` (text.dfy) | `str.strip`, `startswith`, `endswith`, `str(n)`, `int(s)`, `s.split(":", 2)` unpacked into three |
| `Grouping` (grouping.dfy) | counting keys with an insertion-ordered dict |
| `Config` (config.py) | `_getenv` over an environment map, and loading all settings |
| `CartStore` (cart_manager.py) | carts and last orders |
| `Sheets` (sheets.py) | the sheet values turned into records |
| `Summary` (handlers/order.py) | the order lines and total |
| `CartView` (handlers/cart.py) | the cart view and the cart buttons |
| `Menu` (handlers/menu.py) | category keyboard, category choice, browsing flags, dish cards |
| `Session` (session.dfy) | the user record, effects, job bookkeeping |
| `Order` (handlers/order.py) | the checkout conversation, payment, the QR protocol and its jobs |
| `Bot` (bot.py) | routing of updates, the text and inline handlers, whole-run invariants |

Where the code and its documentation differ, the model follows the code:

- A sheet record's keys are the stripped headers plus "ID". The loader adds
  an "ID" entry when the sheet has no such column, so the keys are not only
  the header keys.
- The patterns `^pay:(cash|qr|online)$`, `^checkout$` and `^❌ Отмена$` are
  applied with Python's `re`. There, `$` also matches just before a final
  newline, so `Bot.RegexLine` accepts `w` and `w + "\n"`. `ask_payment`
  compares the text after "pay:" with "cash" and "qr", and any other text
  counts as online. So "pay:cash\n" is taken as an online payment.
- `_cancel_qr_jobs` (handlers/order.py:108-114) is never called. The timeout
  job, `qr_confirm` and `qr_cancel` write the same loop out inline
  (handlers/order.py:88-93, 352-357 and 398-403). `Order.CancelQrJobs` models
  the helper, and the three handlers take the recorded jobs off the queue
  the same way.

## Model

| member | source | states |
|---|---|---|
| Text.Strip | handlers/order.py:147 | the result is a contiguous slice of the input, only whitespace is cut from either end, and it neither starts nor ends with whitespace |
| Text.StripIdempotent | handlers/order.py:181 | stripping a stripped text changes nothing |
| Text.Split3 | bot.py:128 | the three parts joined with ':' give back the data, the first two parts hold no colon, and the unpacking fails exactly when there are fewer than two colons |
| Text.Split3OfJoin | handlers/menu.py:49 | callback data `p:a:b` splits back into `p`, `a`, `b` whenever `p` and `a` hold no colon, even when `b` does |
| Text.Split3ColonInName | bot.py:128 | a sheet name containing ':' is not recovered: `add:a:b:1` reads as sheet `a`, id `b:1` |
| Text.ParseIntOfNatToString | sheets.py:47-48 | the row number written as the default ID reads back as the same number |
| Grouping.Tally | handlers/order.py:238-243 | the groups hold no key twice, hold exactly the keys that occur, and their counts add up to the number of items |
| Grouping.TallyCounts | handlers/order.py:238-243 | each group's count is the number of occurrences of its key, and is positive |
| Grouping.TallyOrder | handlers/order.py:245-248 | groups come out in the order their keys first occur |
| Grouping.TallyWeightedSum | handlers/order.py:234-248 | the sum over groups of count times price equals the sum of the item prices |
| Config.GetEnv | config.py:4-10 | a blank variable is an error when required and the default (uncast) otherwise; a set one is `cast(raw)`, failing exactly when `int` fails, or `raw` with no cast |
| Config.UnsetSameAsEmpty | config.py:5-6 | an unset variable and one set to "" give the same result |
| Config.DefaultsApply | config.py:23-33 | with the required variables set and the optional ones unset, loading succeeds with reminder 10, cancel 30, TTL 600, Europe/Moscow, early hour 10 and late hour 22 |
| Config.MissingTokenFails | config.py:13 | a blank bot token fails the load with that variable's error |
| Config.LoadedRequiredNonEmpty | config.py:13-23 | any successful load had every required variable set and an int operator chat id |
| Config.ReminderNotCheckedAgainstCancel | config.py:24-25 | any reminder delay loads beside the 30-minute timeout: nothing orders the two |
| CartStore.Add | cart_manager.py:7-9 | the item is appended at the end, and only this user's cart changes |
| CartStore.GetCart | cart_manager.py:11-12 | an unknown user has an empty cart |
| CartStore.RemoveAt | cart_manager.py:14-16 | a valid index removes exactly that item, keeping the order of the rest; an out-of-range index or an unknown user changes nothing |
| CartStore.RemoveAtMultiset | cart_manager.py:14-16 | a removal takes out exactly one copy of the removed item |
| CartStore.Clear | cart_manager.py:18-19 | the cart becomes empty, and nothing else changes |
| CartStore.Replace | cart_manager.py:21-22 | the cart becomes the given items, and nothing else changes |
| CartStore.SetLastOrder | cart_manager.py:26-28 | the last order becomes the items, and the carts and other users' last orders stay |
| CartStore.GetLastOrder | cart_manager.py:30-31 | an unknown user has an empty last order |
| CartStore.LastOrderSurvivesCartOps | cart_manager.py:26-31 | after any run of cart operations the last order is still the snapshot taken |
| CartStore.CartOpsKeepLastOrders | cart_manager.py:4-31 | cart operations never change a last order or another user's cart |
| Sheets.Headers | sheets.py:43 | every header is whitespace-stripped |
| Sheets.ParseRow | sheets.py:45-49 | the keys are the headers plus "ID"; a header that does not repeat holds that row's cell; an empty or missing ID becomes the row number and a non-empty one is kept |
| Sheets.Records | sheets.py:39-50 | an empty sheet gives no records, otherwise one record per data row; every record has a non-empty ID |
| Sheets.RecordContents | sheets.py:45-49 | record j holds the cells of data row j, and without an ID column its ID is j+1 |
| Sheets.ExtraCellsDropped | sheets.py:46 | cells beyond the header count are dropped |
| Sheets.MissingCellsBlank | sheets.py:46 | a short row reads as if padded with "" |
| Summary.Summarize | handlers/order.py:234-248 | a summary exists exactly when every price is an int; the total is the sum of the prices, and each line's subtotal is count times price |
| Summary.SummaryCounts | handlers/order.py:238-243 | each (name, price) line counts exactly the items with that name and price |
| Summary.SummaryPartitions | handlers/order.py:238-248 | no (name, price) pair has two lines, and every item is on a line |
| Summary.SummaryOrder | handlers/order.py:245-248 | lines follow the order of first occurrence |
| Summary.SubtotalsAddUp | handlers/order.py:234-258 | the line subtotals add up to the total, and the counts to the number of items |
| CartView.BuildView | handlers/cart.py:5-42 | an empty cart gives the empty view; otherwise there is a view exactly when every price is an int, with one delete button per line, then the clear/checkout and back rows |
| CartView.ViewCounts | handlers/cart.py:14-22 | each line counts exactly the items with its (sheet, id, name, price) key |
| CartView.ViewPartition | handlers/cart.py:14-26 | keys are distinct across lines, and every item is on its key's line |
| CartView.ViewOrder | handlers/cart.py:24-31 | lines follow the order of first occurrence |
| CartView.ViewTotals | handlers/cart.py:24-28 | the counts add up to the cart size, and the subtotals to the sum of prices |
| CartView.FirstMatch | handlers/cart.py:70-73 | the index found is the first item of that sheet and id, or there is none |
| CartView.CartCallback | handlers/cart.py:66-82 | only the user's cart changes; `del:` data without two colons changes nothing, otherwise the first item whose sheet and id match is removed and, with no match, nothing changes; "clear" empties it; anything other than `del:` or "clear" changes nothing |
| CartView.DeleteFirstMatch | handlers/cart.py:67-73 | `del:s:i` removes exactly the first item of sheet s and id i, taking one copy out; with no match nothing changes |
| CartView.DeleteButtonRemovesOne | handlers/cart.py:30-73 | pressing a line's delete button removes one item with that line's sheet and id |
| Menu.Pairs | handlers/menu.py:10 | there are ceil(n/2) rows, each holding one or two names |
| Menu.CategoryRows | handlers/menu.py:10-11 | the pairs, then a last row holding only "Back" |
| Menu.CategoryRowsFlatten | handlers/menu.py:10-11 | reading the rows before "Back" in order gives the categories back |
| Menu.ResolveCategory | handlers/menu.py:27-34 | the pick is always a non-empty category name; an exact name is picked itself; otherwise the pick ends with the text, there is one exactly when some name ends with the text, and with no match there is none |
| Menu.ExactMatchWins | handlers/menu.py:27-28 | an exact name wins even when an earlier name ends with the text |
| Menu.SuffixPicksFirst | handlers/menu.py:29-31 | without an exact match, when some name ends with the text there is a pick, and it is the first such name |
| Menu.ShowCategories | handlers/menu.py:17-18 | the category list is shown and the dish list is not |
| Menu.ChooseCategory | handlers/menu.py:33-38 | an unknown text leaves the flags as they were; a known one moves them to the dish list |
| Menu.GoBack | bot.py:54-74 | from a dish list, back to the categories; from elsewhere, the category flag drops and the dish flag stays |
| Menu.DishCard | handlers/menu.py:41-54 | the button data is `add:sheet:id`; a photo is used exactly when the link starts with "http"; missing name and price default to "Без названия" and "0" |
| Menu.AddDataRoundTrip | handlers/menu.py:49 | a card's button data starts with "add:" and, for a sheet name without ':', splits back into its sheet and dish id |
| Session.OperatorCountAppend | handlers/order.py:263-306 | operator messages of two effect logs add up |
| Session.OperatorCountZero | handlers/order.py:263-306 | the count is zero exactly when no effect goes to the operator |
| Session.ApplyJobs | handlers/order.py:100-114 | the live jobs afterwards are at most the live ones not taken off plus the ones queued, and include every live one not taken off |
| Session.TrackedLive | handlers/order.py:100-114 | under a handler that keeps the record's job handles in step, every live job stays one the record holds |
| Order.QrOnlyOutsideDay | handlers/order.py:37-43 | with the early hour before the late one, QR-only holds exactly outside [early, late), wrapping midnight |
| Order.QrOnlyDefaults | handlers/order.py:37-43 | with 10 and 22: QR-only at 22, 23, 0 and 5; not at 10, 12 and 21 |
| Order.PhoneShape | handlers/order.py:150 | a phone is valid exactly when it is "+7" followed by ten digits |
| Order.PhoneExamples | handlers/order.py:150 | "+79001234567" is accepted; an 8-prefix, a short, a long and a non-digit phone are rejected |
| Order.CancelCheckout | handlers/order.py:413-421 | the conversation ends and the checkout flag drops; name, phone, address, comment and order id stay; the cart is untouched and the operator hears nothing |
| Order.StartCheckout | handlers/order.py:118-129 | the conversation opens at the name step with the checkout flag set, and nothing else changes |
| Order.AskNameStep | handlers/order.py:133-144 | "Cancel" cancels; otherwise the raw text is the name, and an order id is minted from the clock only when none exists |
| Order.AskPhoneStep | handlers/order.py:146-162 | the stripped "Cancel" cancels; an invalid phone keeps the step, writes nothing and warns; a valid one is stored stripped |
| Order.AskPhoneAccepts | handlers/order.py:146-162 | the step moves on exactly when the stripped text is "+7" and ten digits, and a stored phone always has that shape |
| Order.AskAddressStep | handlers/order.py:164-178 | "Cancel" cancels; otherwise the raw text is stored and the comment step follows |
| Order.AskCommentStep | handlers/order.py:180-206 | "Cancel" cancels; "Skip" stores ""; other text is stored stripped; the payment choice offers only QR inside the window |
| Order.CommentStored | handlers/order.py:181-184 | a stored comment has no surrounding whitespace and is never the "Skip" text |
| Order.Archive | handlers/order.py:268-269 | the last order becomes the cart and the cart becomes empty; other users are untouched |
| Order.Compose | handlers/order.py:228-259 | the order carries the cart's lines and total and the collected fields, an absent one reading as "" (the order id as the clock) |
| Order.ScheduleQrJobs | handlers/order.py:100-114 | the correction of `_schedule_qr_jobs` under Findings: the two new jobs are recorded, and every earlier job is taken off the queue the way `_cancel_qr_jobs` does |
| Order.ScheduleQrJobsTracks | handlers/order.py:100-114 | for the correction under Findings: scheduling queues only recorded jobs and takes off every previously recorded one |
| Order.CancelQrJobs | handlers/order.py:108-114 | every recorded job is taken off the queue, none is put on, the handles are dropped and nothing else in the record changes |
| Order.ScheduleQrJobsCancelsFirst | handlers/order.py:100-114 | the corrected scheduling is exactly `_cancel_qr_jobs` followed by the code's `_schedule_qr_jobs` |
| Order.ScheduleForSets | handlers/order.py:100-106 | as written, scheduling queues exactly the two new jobs and takes nothing off the queue; corrected, it also takes off every job recorded before |
| Order.DeleteQr | handlers/order.py:341-345 | a deletion happens exactly when a QR message id is stored and is not 0 |
| Order.AskPaymentStep | handlers/order.py:208-306 | inside the QR-only window a non-QR method gets a warning and changes nothing; an unpriced cart changes nothing; cash and online tell the operator exactly once with the composed order, archive the cart and drop the checkout flag, except that an online choice whose payment link could not be created changes nothing; QR tells no one, leaves the store and the checkout flag, and records the pending order, the awaiting flag, the QR message and exactly two jobs |
| Order.CashOrderTotal | handlers/order.py:234-271 | an order that goes through carries the sum of the cart's prices, and its subtotals add up to it |
| Order.AskPaymentTracks | handlers/order.py:263-306 | outside a successful QR choice the jobs and their record are untouched; a QR choice records and queues exactly the two new jobs, and as written takes nothing off the queue (corrected, it takes off every job recorded before) |
| Order.AskPaymentQrRecord | handlers/order.py:273-294 | a QR choice with a priced cart changes only the pending order, the awaiting flag, the QR message and the job handles: name, phone, address, comment, checkout flag and the rest of the record stay as they were |
| Order.AskPaymentQr | handlers/order.py:273-294 | a QR choice with a priced cart ends the conversation awaiting a pending order, records exactly the two new jobs and queues them; as written it takes nothing off the queue, corrected it takes off every job recorded before |
| Order.AskPaymentNoSession | handlers/order.py:208-306 | any other method, or an unpriced cart, leaves the jobs and their record alone and never drops a pending order's awaiting flag |
| Order.QrConfirm | handlers/order.py:318-365 | with no pending order only a notice goes out; with one the operator is told once with it, the QR message is deleted, the cart becomes the last order and is emptied, the QR session is cleared, and every recorded job is taken off |
| Order.QrRepeat | handlers/order.py:367-386 | the awaiting flag is set, the new QR message replaces the old one (deleted when there was one), the jobs and the cart are kept, and the operator hears nothing |
| Order.QrCancel | handlers/order.py:388-409 | the QR session is cleared and its jobs taken off; the cart and the last order stay; the operator hears nothing |
| Order.ReminderJob | handlers/order.py:47-66 | nothing happens unless awaiting; then only a reminder goes out |
| Order.TimeoutJob | handlers/order.py:68-98 | nothing happens unless awaiting; then the QR session is cleared, its jobs taken off, and the cart left alone |
| Order.ConfirmTwice | handlers/order.py:318-326 | a second confirmation tells the operator nothing and changes neither record nor store |
| Order.RepeatWithoutPending | handlers/order.py:367-368 | "show QR again" sets the awaiting flag even with nothing pending |
| Order.AtMostOneNotification | handlers/order.py:318-409 | over any run of QR buttons and jobs the operator is told at most once, and never without a pending order |
| Order.CartUntouchedWithoutConfirm | handlers/order.py:367-409 | without a confirmation no run of QR events changes the cart or the last order |
| Order.QrStepKeepsPendingAwaited | handlers/order.py:318-409 | a pending order is always awaited, and a QR event never swaps in another pending order |
| Order.QrStepTracks | handlers/order.py:318-409 | every QR button and job keeps the queue in step with the record |
| Order.ScheduleQrJobsAsWritten | handlers/order.py:100-106 | the two new handles overwrite the record's, and only Schedule effects are emitted: earlier jobs are not taken off |
| Order.StaleTimeoutCancelsNewSession | handlers/order.py:68-106 | as written, a second QR checkout leaves the first timeout live and unrecorded, and when it fires it cancels the second session |
| Order.NoStaleTimeoutWhenCorrected | handlers/order.py:100-114 | with the correction only the second session's jobs are live |
| Bot.MethodOf | handlers/order.py:211 | "pay:cash" is cash, "pay:qr" is QR, and every other matched data (including "pay:cash\n") is online |
| Bot.TextHandler | bot.py:45-112 | "Cancel" ends a checkout exactly when the checkout flag is set; "Back" follows GoBack and clears the chat, then shows the categories from a dish list and the main menu otherwise; "Menu" shows the categories; "Cart" shows the cart and "Contacts" the contacts, changing nothing; "Repeat order" leaves the record alone and puts a non-empty last order in the cart, otherwise changing nothing; only "Repeat order" changes the store; other text picks a category only while categories are shown; nothing reaches the operator or the QR session |
| Bot.ShowDishes | handlers/menu.py:20-60 | an unknown text sends nothing; a known sheet shows one card per dish, in sheet order, between a chat clear and the keyboard tail |
| Bot.FindDish | bot.py:133 | the dish found is the first with that id, or no dish has it |
| Bot.AddToCart | bot.py:126-145 | malformed data or an unreadable sheet change nothing; otherwise the confirmation goes out and the cart gains the first dish with the id, or stays the same when none has it |
| Bot.AddButtonAddsDish | bot.py:126-142 | a card's "add" button appends, with its sheet and id, the first dish sharing the card's id: the dish itself when ids are unique |
| Bot.CartButton | handlers/cart.py:56-88 | "back" shows the main menu and changes nothing; "clear" empties the cart and shows the empty view; `del:` leaves the store exactly as the cart callback does: unreadable data changes nothing, otherwise the first item with that sheet and id is taken out; only the user's cart changes |
| Bot.InlineHandler | bot.py:116-151 | the three QR buttons go to the QR protocol; any other button leaves the record alone and only touches the user's cart; unknown data changes nothing |
| Bot.Start | bot.py:29-41 | /start drops the browsing and checkout flags and leaves the conversation phase, the store and the jobs as they were |
| Bot.RouteKeepsSessionInv | bot.py:164-180 | as written, every update keeps: a pending order is awaited, every job id was handed out before, and every live job is recorded or older than every recorded one, so left by an earlier QR session |
| Bot.PaymentKeepsSessionInv | handlers/order.py:100-106 | as written, a payment button keeps the session invariant, because a new session's jobs get the two fresh ids and every job already queued is older |
| Bot.RunKeepsSessionInv | bot.py:164-180 | as written, that invariant holds after any run of updates |
| Bot.CorrectedRouteKeepsInv | handlers/order.py:100-114 | with the corrected scheduling every update keeps: a pending order is awaited, and every live job is one the record holds |
| Bot.CorrectedRunKeepsInv | handlers/order.py:100-114 | with the corrected scheduling that invariant holds after any run of updates |
| Bot.QrChoice | handlers/order.py:273-295 | "pay:qr" with a priced cart starts a waiting session on the two fresh jobs; the queue gains exactly those and loses nothing as written, or every earlier recorded job when corrected |
| Bot.SecondQrChoice | handlers/order.py:100-106 | as written, a second QR choice starts a session on fresh jobs and leaves the first session's timeout live without a handle |
| Bot.TimeoutEndsSession | handlers/order.py:68-98 | a live timeout that fires while a QR session waits ends that session, whichever session queued it, and takes the session's jobs off the queue |
| Bot.StaleTimeoutInRun | handlers/order.py:68-106 | as written, after a second QR choice the first timeout fires, drops the second session's order and takes the second timeout off the queue |
| Bot.NoStaleTimeoutInCorrectedRun | handlers/order.py:100-114 | corrected, the second QR choice takes the first timeout off the queue, so its firing changes nothing and the second session keeps waiting |
| Bot.RepeatOrder | bot.py:85-98 | "Repeat order" reports an empty last order and changes nothing; otherwise the last order becomes the sender's cart, no other cart and no last order changes, and nothing but user messages goes out |
| Bot.CancelRouting | bot.py:164-180 | "Cancel" inside the conversation always ends it; outside, it cancels exactly when the checkout flag is set |
| Bot.PaymentPhaseExits | bot.py:171-173 | ASK_PAYMENT is left only through a payment button or the cancel text; a payment button leaves it exactly when the cart has a total, the method is allowed at that hour, and for an online choice the payment link was created |
| Bot.OperatorOnlyOnOrder | bot.py:164-180 | an update tells the operator at most once, and only for a cash or online payment in ASK_PAYMENT or a QR confirmation with an order pending |
| Bot.CashCheckout | handlers/order.py:118-271 | a full cash checkout tells the operator once, with the typed fields and the cart's total, archives the cart and drops the checkout flag |
| Bot.QrCheckoutConfirmed | handlers/order.py:273-365 | choosing QR tells no one and keeps the cart; confirming then tells the operator once with the order composed at the choice, and archives the cart |
| Bot.ReentryWhileAwaiting | handlers/order.py:273-295 | while a QR order waits, "checkout" opens a new conversation over the waiting session, whose order and jobs remain |

## Left out

- Telegram transport is not modelled: message text and keyboards beyond their structure, `answer()`, photo versus text replies, and the per-message `message_ids` bookkeeping in ui.py. Clearing the chat is one `ClearChat` effect, and a deletion is a best-effort effect that cannot fail.
- sheets_async.py is not modelled: its cache, lock and TTL. The category names and the sheet contents are a fixed `Catalog` input, so the two reads of one update always agree. Its records are taken to be `Sheets.Records` outputs, which always carry an ID (sheets.py:47-48) and so are never empty. That is why the `if dish:` test at bot.py:134, which skips an empty record, is not modelled.
- The Google API calls and the credential loading in sheets.py (lines 10-29) are not modelled.
- payment.py is not modelled: the link `create_payment` returns is the `paymentUrl` of the update's context. `None` there stands for the call raising. The online branch then ends the update with nothing sent and nothing changed, which is what the uncaught exception leaves behind.
- The clock is an input: `datetime.now`, ZoneInfo, the UTC+3 fallback and `strftime`. The Moscow hour, the operator timestamp and the order-id clock string come in through `Ctx`.
- The real job queue is not modelled. Jobs are handles with fresh ids, and a set of live handles with explicit "job fires" updates.
- Other users' updates interleaving with this user's, and `concurrent_updates`, are not modelled.
- Commands other than /start are not modelled, nor text with a leading command entity.
- Order.PhoneValid: `\d` is modelled on ASCII digits only. Python also accepts other Unicode decimal digits.
- Text.ParseInt: `int()` is modelled on ASCII digits with surrounding whitespace stripped and one optional sign. Python also accepts other Unicode decimal digits and underscores between digits.
- Summary.LineText: the rendering of the order text is modelled for one line only. The order travels as a structured `OrderText`.
- Bot.Route: the per-user machine follows one user's record. Another user's effect on the shared store is visible only through the store passed in.

## Findings

| source | as written | input that shows it | evidently intended | confidence | as-written member | corrected member |
|---|---|---|---|---|---|---|
| handlers/order.py:100-106 | `_schedule_qr_jobs` overwrites `qr_jobs` with the two new jobs without removing the jobs already recorded | Choose QR and do not confirm. The QR branch ends the conversation but leaves `in_checkout` set and the cart full, so press the cart's "checkout" again, go through the steps, and choose QR once more. The first session's timeout stays queued with no handle left on it. When it fires, `awaiting_qr_confirm` is true for the second session, which it cancels early, taking the second session's jobs off the queue. | take the earlier jobs off the queue before recording the new ones, as `_cancel_qr_jobs` does, so every queued job belongs to the current session | medium, not executed | Order.ScheduleQrJobsAsWritten, Order.StaleTimeoutCancelsNewSession, Bot.StaleTimeoutInRun | Order.ScheduleQrJobs, Order.ScheduleQrJobsCancelsFirst, Order.ScheduleQrJobsTracks, Order.NoStaleTimeoutWhenCorrected, Bot.CorrectedRouteKeepsInv, Bot.NoStaleTimeoutInCorrectedRun |
