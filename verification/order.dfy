/** handlers/order.py: the checkout conversation (name, phone, address,
    comment, payment method), the order summary sent to the operator, and
    the QR payment sub-protocol with its reminder and timeout jobs. */
module Order {
  import opened Results
  import opened Text
  import opened CartStore
  import opened Summary
  import opened Config
  import opened Session

  const CancelText := "❌ Отмена"
  const SkipText := "⏭️ Пропустить"

  /** `_is_qr_only_now`, with the Moscow hour as input: from the late hour
      up to midnight and from midnight up to the early hour only QR payment
      is offered. */
  function QrOnly(hour: int, early: int, late: int): bool {
    hour >= late || hour < early
  }

  /** With the early hour before the late one, the window is exactly the
      hours outside [early, late): it wraps around midnight. */
  lemma QrOnlyOutsideDay(hour: int, early: int, late: int)
    requires early <= late
    ensures QrOnly(hour, early, late) <==> !(early <= hour < late)
  {
  }

  /** Illustration of `QrOnly` at the default hours 10 and 22: QR only at
      22, 23, 0 and 5; every method at 10, 12 and 21. */
  lemma QrOnlyDefaults()
    ensures QrOnly(22, DefaultEarlyHour, DefaultLateHour) && QrOnly(23, DefaultEarlyHour, DefaultLateHour)
    ensures QrOnly(0, DefaultEarlyHour, DefaultLateHour) && QrOnly(5, DefaultEarlyHour, DefaultLateHour)
    ensures !QrOnly(10, DefaultEarlyHour, DefaultLateHour) && !QrOnly(12, DefaultEarlyHour, DefaultLateHour)
    ensures !QrOnly(21, DefaultEarlyHour, DefaultLateHour)
  {
  }

  /** `re.fullmatch(r"\+7\d{10}", text)` with ASCII digits. */
  predicate PhoneValid(t: string) {
    |t| == 12 && t[0] == '+' && t[1] == '7' && AllDigits(t[2..])
  }

  /** A phone is valid exactly when it is "+7" followed by ten digits. */
  lemma PhoneShape(t: string)
    ensures PhoneValid(t) <==> exists ds :: |ds| == 10 && AllDigits(ds) && t == "+7" + ds
  {
    if PhoneValid(t) {
      assert t == "+7" + t[2..];
    }
  }

  /** Illustration of `PhoneValid` on a few inputs. */
  lemma PhoneExamples()
    ensures PhoneValid("+79001234567")
    ensures !PhoneValid("89001234567") && !PhoneValid("+7900123456") && !PhoneValid("+790012345678")
    ensures !PhoneValid("+7900123456a")
  {
    assert !IsDigit("+7900123456a"[11]);
  }

  /** `cancel_checkout_msg`: the chat is cleared and the checkout flag
      drops; everything collected so far (order id, name, phone, address,
      comment) stays in the record, and the cart is not touched. */
  function CancelCheckout(d: UserData, st: Store): (r: Turn)
    ensures r.phase == Idle && !r.data.inCheckout && r.store == st
    ensures r.data.(inCheckout := d.inCheckout) == d
    ensures OperatorCount(r.effects) == 0
  {
    Turn(Idle, d.(inCheckout := false), st, [ClearChat, ToUser(CheckoutCancelled)])
  }

  /** `start_checkout`, the "checkout" button: the conversation opens. */
  function StartCheckout(d: UserData, st: Store): (r: Turn)
    ensures r.phase == AskName && r.data.inCheckout && r.store == st
    ensures r.data.(inCheckout := d.inCheckout) == d
  {
    Turn(AskName, d.(inCheckout := true), st, [ToUser(AskForName)])
  }

  /** `ask_name`: the raw text is the name; an order id is minted from the
      clock only when the record has none, so re-entering keeps it. */
  function AskNameStep(ctx: Ctx, d: UserData, st: Store, text: string): (r: Turn)
    ensures text == CancelText ==> r == CancelCheckout(d, st)
    ensures text != CancelText ==> r.phase == AskPhone && r.data.name == Some(text) && r.store == st
    ensures text != CancelText ==> r.data.orderId == if d.orderId.Some? then d.orderId else Some(ctx.clock)
    ensures text != CancelText ==> r.data.(name := d.name, orderId := d.orderId) == d
  {
    if text == CancelText then CancelCheckout(d, st)
    else
      var id := if d.orderId.Some? then d.orderId else Some(ctx.clock);
      Turn(AskPhone, d.(orderId := id, name := Some(text)), st, [ToUser(AskForPhone)])
  }

  /** `ask_phone`: the stripped text; a rejected phone keeps the phase and
      writes nothing. */
  function AskPhoneStep(d: UserData, st: Store, text: string): (r: Turn)
    ensures Strip(text) == CancelText ==> r == CancelCheckout(d, st)
    ensures Strip(text) != CancelText && !PhoneValid(Strip(text)) ==>
      r.phase == AskPhone && r.data == d && r.store == st && r.effects == [ToUser(BadPhone)]
    ensures Strip(text) != CancelText && PhoneValid(Strip(text)) ==>
      r.phase == AskAddress && r.data == d.(phone := Some(Strip(text))) && r.store == st
  {
    var t := Strip(text);
    if t == CancelText then CancelCheckout(d, st)
    else if !PhoneValid(t) then Turn(AskPhone, d, st, [ToUser(BadPhone)])
    else Turn(AskAddress, d.(phone := Some(t)), st, [ToUser(AskForAddress)])
  }

  /** The phone step moves on exactly when the stripped text is "+7" and ten
      digits, and the stored phone is always of that shape. */
  lemma AskPhoneAccepts(d: UserData, st: Store, text: string)
    requires Strip(text) != CancelText
    ensures AskPhoneStep(d, st, text).phase == AskAddress <==>
      exists ds :: |ds| == 10 && AllDigits(ds) && Strip(text) == "+7" + ds
    ensures AskPhoneStep(d, st, text).data.phone != d.phone ==>
      exists ds :: |ds| == 10 && AllDigits(ds) && AskPhoneStep(d, st, text).data.phone == Some("+7" + ds)
  {
    PhoneShape(Strip(text));
  }

  /** `ask_address`: the raw text is the address. */
  function AskAddressStep(d: UserData, st: Store, text: string): (r: Turn)
    ensures text == CancelText ==> r == CancelCheckout(d, st)
    ensures text != CancelText ==> r.phase == AskComment && r.data == d.(address := Some(text)) && r.store == st
  {
    if text == CancelText then CancelCheckout(d, st)
    else Turn(AskComment, d.(address := Some(text)), st, [ToUser(AskForComment)])
  }

  /** `ask_comment`: "skip" stores an empty comment, anything else is stored
      stripped; the payment keyboard offers only QR inside the window. */
  function AskCommentStep(ctx: Ctx, cfg: Settings, d: UserData, st: Store, text: string): (r: Turn)
    ensures Strip(text) == CancelText ==> r == CancelCheckout(d, st)
    ensures Strip(text) != CancelText ==> r.phase == AskPayment && r.store == st
    ensures Strip(text) == SkipText ==> r.data == d.(comment := Some(""))
    ensures Strip(text) != CancelText && Strip(text) != SkipText ==> r.data == d.(comment := Some(Strip(text)))
    ensures Strip(text) != CancelText ==>
      r.effects == [ToUser(PaymentChoice(QrOnly(ctx.hour, cfg.earlyHour, cfg.lateHour)))]
  {
    var t := Strip(text);
    if t == CancelText then CancelCheckout(d, st)
    else
      var comment := if t == SkipText then "" else t;
      Turn(AskPayment, d.(comment := Some(comment)), st,
        [ToUser(PaymentChoice(QrOnly(ctx.hour, cfg.earlyHour, cfg.lateHour)))])
  }

  /** The stored comment never has surrounding whitespace, and is never the
      skip button's text. */
  lemma CommentStored(ctx: Ctx, cfg: Settings, d: UserData, st: Store, text: string)
    requires Strip(text) != CancelText
    ensures var c := AskCommentStep(ctx, cfg, d, st, text).data.comment;
      c.Some? && c.value != SkipText && Strip(c.value) == c.value
  {
    StripIdempotent(text);
  }

  datatype PayMethod = Cash | Qr | Online

  /** `set_last_order(user, cart)` then `clear_cart(user)`. */
  function Archive(st: Store, u: UserId, cart: seq<Item>): (r: Store)
    ensures GetLastOrder(r, u) == cart && GetCart(r, u) == []
    ensures r.carts - {u} == st.carts - {u} && r.lastOrders - {u} == st.lastOrders - {u}
  {
    Clear(SetLastOrder(st, u, cart), u)
  }

  /** `base_order_text`: the collected fields (an absent one reads as ""),
      the grouped lines and the total. */
  function Compose(ctx: Ctx, d: UserData, t: Totals): (o: OrderText)
    ensures o.lines == t.lines && o.total == t.total
    ensures o.orderId == d.orderId.GetOr(ctx.clock) && o.name == d.name.GetOr("")
    ensures o.phone == d.phone.GetOr("") && o.address == d.address.GetOr("") && o.comment == d.comment.GetOr("")
  {
    OrderText(d.orderId.GetOr(ctx.clock), d.name.GetOr(""), d.phone.GetOr(""), d.address.GetOr(""),
      d.comment.GetOr(""), t.lines, t.total)
  }

  function Unschedules(jobs: seq<Job>): (es: seq<Effect>)
    ensures |es| == |jobs|
    ensures forall i :: 0 <= i < |jobs| ==> es[i] == Unschedule(jobs[i])
  {
    seq(|jobs|, i requires 0 <= i < |jobs| => Unschedule(jobs[i]))
  }

  /** The two jobs of a QR session, from two fresh ids. */
  function QrJobs(ids: (nat, nat)): seq<Job> {
    [Job(ids.0, Reminder), Job(ids.1, Timeout)]
  }

  function ScheduleEffects(cfg: Settings, ids: (nat, nat)): seq<Effect> {
    [Schedule(Job(ids.0, Reminder), cfg.reminderMinutes * 60), Schedule(Job(ids.1, Timeout), cfg.cancelMinutes * 60)]
  }

  /** `_schedule_qr_jobs` as the code has it: two new jobs, and the handles
      of any earlier ones are overwritten without taking them off the queue. */
  function ScheduleQrJobsAsWritten(cfg: Settings, d: UserData, ids: (nat, nat)): (r: (UserData, seq<Effect>))
    ensures r.0 == d.(qrJobs := QrJobs(ids))
    ensures forall i :: 0 <= i < |r.1| ==> r.1[i].Schedule?
  {
    (d.(qrJobs := QrJobs(ids)), ScheduleEffects(cfg, ids))
  }

  /** `_schedule_qr_jobs` corrected: the earlier jobs are taken off the queue
      (as `_cancel_qr_jobs` does) before the two new ones are recorded. */
  function ScheduleQrJobs(cfg: Settings, d: UserData, ids: (nat, nat)): (r: (UserData, seq<Effect>))
    ensures r.0 == d.(qrJobs := QrJobs(ids))
    ensures forall j :: j in d.qrJobs ==> Unschedule(j) in r.1
  {
    (d.(qrJobs := QrJobs(ids)), Unschedules(d.qrJobs) + ScheduleEffects(cfg, ids))
  }

  /** Which `_schedule_qr_jobs` the payment step runs: the code's, or the
      corrected one of the finding recorded in README. */
  datatype Scheduling = AsWritten | Corrected

  function ScheduleFor(sched: Scheduling, cfg: Settings, d: UserData, ids: (nat, nat)): (r: (UserData, seq<Effect>))
    ensures r.0 == d.(qrJobs := QrJobs(ids))
  {
    match sched
    case AsWritten => ScheduleQrJobsAsWritten(cfg, d, ids)
    case Corrected => ScheduleQrJobs(cfg, d, ids)
  }

  /** Both schedulings queue exactly the two recorded jobs; the code's takes
      nothing off the queue, the corrected one takes off every job the record
      held before. */
  lemma ScheduleForSets(sched: Scheduling, cfg: Settings, d: UserData, ids: (nat, nat))
    ensures Scheduled(ScheduleFor(sched, cfg, d, ids).1) == JobSet(QrJobs(ids))
    ensures sched == AsWritten ==> Unscheduled(ScheduleFor(sched, cfg, d, ids).1) == {}
    ensures sched == Corrected ==> Unscheduled(ScheduleFor(sched, cfg, d, ids).1) == JobSet(d.qrJobs)
  {
    ScheduleEffectsSets(cfg, ids);
    if sched == Corrected {
      UnschedulesSets(d.qrJobs);
      JobSetsAppend(Unschedules(d.qrJobs), ScheduleEffects(cfg, ids));
    }
  }

  /** `_cancel_qr_jobs`: every recorded job is taken off the queue and the
      handles are dropped; nothing is put on the queue and nothing else in
      the record changes. The code never calls it: the same loop is written
      out in the timeout job, in `qr_confirm` and in `qr_cancel`, which the
      model renders with `Unschedules` and `ClearQr`. */
  function CancelQrJobs(d: UserData): (r: (UserData, seq<Effect>))
    ensures r.0 == d.(qrJobs := [])
    ensures Unscheduled(r.1) == JobSet(d.qrJobs) && Scheduled(r.1) == {}
    ensures |r.1| == |d.qrJobs|
  {
    UnschedulesSets(d.qrJobs);
    (d.(qrJobs := []), Unschedules(d.qrJobs))
  }

  /** The corrected `_schedule_qr_jobs` is `_cancel_qr_jobs` followed by the
      code's `_schedule_qr_jobs`. */
  lemma ScheduleQrJobsCancelsFirst(cfg: Settings, d: UserData, ids: (nat, nat))
    ensures var c := CancelQrJobs(d);
      var s := ScheduleQrJobsAsWritten(cfg, c.0, ids);
      ScheduleQrJobs(cfg, d, ids) == (s.0, c.1 + s.1)
  {
  }

  /** `if qr_msg_id: delete_message(...)`: a message id of 0 is falsy. */
  function DeleteQr(id: Option<nat>): (es: seq<Effect>)
    ensures es == [] <==> id.None? || id.value == 0
    ensures OperatorCount(es) == 0
  {
    if id.Some? && id.value != 0 then [DeleteMessage(id.value)] else []
  }

  /** What confirm, cancel and the timeout all do to the record: the QR
      session is gone, and nothing else changes. */
  predicate QrCleared(d: UserData, r: UserData) {
    && !r.awaiting && r.pending.None? && r.qrMessageId.None? && r.qrJobs == []
    && r.(awaiting := d.awaiting, pending := d.pending, qrMessageId := d.qrMessageId, qrJobs := d.qrJobs) == d
  }

  function ClearQr(d: UserData): (r: UserData)
    ensures QrCleared(d, r)
  {
    d.(awaiting := false, pending := None, qrMessageId := None, qrJobs := [])
  }

  /** The cash branch: one operator message, the cart archived. */
  function PayCash(ctx: Ctx, d: UserData, st: Store, order: OrderText): (r: Turn)
    ensures r.phase == Idle && OperatorCount(r.effects) == 1
    ensures r.store == Archive(st, ctx.user, GetCart(st, ctx.user)) && r.data == d.(inCheckout := false)
    ensures NoJobs(r.effects) && ToOperator(CashOrder(order, ctx.stamp)) in r.effects
  {
    var effects := [ToUser(OrderAccepted), ToOperator(CashOrder(order, ctx.stamp))];
    OperatorCountAppend([ToUser(OrderAccepted)], [ToOperator(CashOrder(order, ctx.stamp))]);
    OperatorCountSingle(ToUser(OrderAccepted));
    OperatorCountSingle(ToOperator(CashOrder(order, ctx.stamp)));
    assert effects == [ToUser(OrderAccepted)] + [ToOperator(CashOrder(order, ctx.stamp))];
    Turn(Idle, d.(inCheckout := false), Archive(st, ctx.user, GetCart(st, ctx.user)), effects)
  }

  /** The online branch. When `create_payment` raises the handler stops
      there: still ASK_PAYMENT, nothing sent, nothing stored. Otherwise a
      payment request, the link, one operator message, the cart archived. */
  function PayOnline(ctx: Ctx, d: UserData, st: Store, order: OrderText): (r: Turn)
    ensures NoJobs(r.effects)
    ensures ctx.paymentUrl.None? ==> r == Turn(AskPayment, d, st, [])
    ensures ctx.paymentUrl.Some? ==> r.phase == Idle && OperatorCount(r.effects) == 1
    ensures ctx.paymentUrl.Some? ==>
      r.store == Archive(st, ctx.user, GetCart(st, ctx.user)) && r.data == d.(inCheckout := false)
    ensures ctx.paymentUrl.Some? ==> RequestPayment(order.total, ctx.user) in r.effects
    ensures ctx.paymentUrl.Some? ==> ToOperator(OnlineOrder(order, ctx.paymentUrl.value, ctx.stamp)) in r.effects
  {
    match ctx.paymentUrl
    case None => Turn(AskPayment, d, st, [])
    case Some(url) =>
      var head := [RequestPayment(order.total, ctx.user), ToUser(PaymentLink(url))];
      var last := ToOperator(OnlineOrder(order, url, ctx.stamp));
      OperatorCountAppend(head, [last]);
      OperatorCountZero(head);
      OperatorCountSingle(last);
      Turn(Idle, d.(inCheckout := false), Archive(st, ctx.user, GetCart(st, ctx.user)), head + [last])
  }

  /** The QR branch: the order waits for confirmation, two jobs are queued
      and recorded; no operator message, no store change. As the code has
      it no earlier job comes off the queue. */
  function PayQr(ctx: Ctx, cfg: Settings, sched: Scheduling, d: UserData, st: Store, order: OrderText, ids: (nat, nat)): (r: Turn)
    ensures r.phase == Idle && OperatorCount(r.effects) == 0 && r.store == st
    ensures r.data == d.(pending := Some(order), awaiting := true, qrMessageId := Some(ctx.messageId), qrJobs := QrJobs(ids))
    ensures Scheduled(r.effects) == JobSet(QrJobs(ids))
    ensures sched == AsWritten ==> Unscheduled(r.effects) == {}
    ensures sched == Corrected ==> Unscheduled(r.effects) == JobSet(d.qrJobs)
  {
    var d1 := d.(pending := Some(order), awaiting := true, qrMessageId := Some(ctx.messageId));
    var s := ScheduleFor(sched, cfg, d1, ids);
    QrCheckoutCount(cfg, sched, d1, ids);
    ScheduleForSets(sched, cfg, d1, ids);
    NoJobsSets([ToUser(QrShown(Some(order.total)))]);
    JobSetsAppend([ToUser(QrShown(Some(order.total)))], s.1);
    Turn(Idle, s.0, st, [ToUser(QrShown(Some(order.total)))] + s.1)
  }

  /** `ask_payment`. Inside the QR-only window any other method only gets a
      warning. Otherwise the order is composed from the cart (a price that
      is not an int makes the handler raise: nothing happens), and then
      cash: the operator is told once, the cart becomes the last order and
      is emptied, the checkout flag drops;
      QR: the order waits in the record for the user's confirmation, the QR
      message id is kept and the two jobs are queued; the cart, the last
      order and the checkout flag are left as they are;
      online: a payment is requested (a failing request raises and
      changes nothing), the link sent, the operator told, and the cart
      archived as for cash. */
  function AskPaymentStep(ctx: Ctx, cfg: Settings, sched: Scheduling, d: UserData, st: Store, pay: PayMethod, ids: (nat, nat)): (r: Turn)
    ensures QrOnly(ctx.hour, cfg.earlyHour, cfg.lateHour) && pay != Qr ==>
      r == Turn(AskPayment, d, st, [ToUser(QrOnlyWarning)])
    ensures r.phase != Idle ==> r.phase == AskPayment && r.data == d && r.store == st && OperatorCount(r.effects) == 0
    ensures r.phase == Idle <==>
      && Summarize(GetCart(st, ctx.user)).Some?
      && !(QrOnly(ctx.hour, cfg.earlyHour, cfg.lateHour) && pay != Qr)
      && !(pay == Online && ctx.paymentUrl.None?)
    ensures r.phase == Idle && pay != Qr ==>
      && OperatorCount(r.effects) == 1
      && r.store == Archive(st, ctx.user, GetCart(st, ctx.user))
      && r.data == d.(inCheckout := false)
    ensures r.phase == Idle && pay == Cash ==>
      ToOperator(CashOrder(Compose(ctx, d, Summarize(GetCart(st, ctx.user)).value), ctx.stamp)) in r.effects
    ensures r.phase == Idle && pay == Online ==>
      ToOperator(OnlineOrder(Compose(ctx, d, Summarize(GetCart(st, ctx.user)).value), ctx.paymentUrl.value, ctx.stamp)) in r.effects
    ensures r.phase == Idle && pay == Qr ==>
      && OperatorCount(r.effects) == 0
      && r.store == st
      && r.data.awaiting && r.data.pending == Some(Compose(ctx, d, Summarize(GetCart(st, ctx.user)).value))
      && r.data.qrMessageId == Some(ctx.messageId)
      && r.data.qrJobs == QrJobs(ids)
      && r.data.inCheckout == d.inCheckout
  {
    if QrOnly(ctx.hour, cfg.earlyHour, cfg.lateHour) && pay != Qr then
      OperatorCountSingle(ToUser(QrOnlyWarning));
      Turn(AskPayment, d, st, [ToUser(QrOnlyWarning)])
    else
      var totals := Summarize(GetCart(st, ctx.user));
      if totals.None? then Turn(AskPayment, d, st, [])
      else
        var order := Compose(ctx, d, totals.value);
        match pay
        case Cash => PayCash(ctx, d, st, order)
        case Qr => PayQr(ctx, cfg, sched, d, st, order, ids)
        case Online => PayOnline(ctx, d, st, order)
  }

  lemma QrCheckoutCount(cfg: Settings, sched: Scheduling, d: UserData, ids: (nat, nat))
    ensures OperatorCount([ToUser(QrShown(None))] + ScheduleFor(sched, cfg, d, ids).1) == 0
    ensures forall t :: OperatorCount([ToUser(QrShown(t))] + ScheduleFor(sched, cfg, d, ids).1) == 0
  {
    forall t: Option<int> ensures OperatorCount([ToUser(QrShown(t))] + ScheduleFor(sched, cfg, d, ids).1) == 0 {
      var es := [ToUser(QrShown(t))] + ScheduleFor(sched, cfg, d, ids).1;
      OperatorCountZero(es);
    }
  }

  /** The order the operator receives for a cash or online payment carries
      the cart's total, and its line subtotals add up to it. */
  lemma CashOrderTotal(ctx: Ctx, cfg: Settings, sched: Scheduling, d: UserData, st: Store, pay: PayMethod, ids: (nat, nat))
    requires AskPaymentStep(ctx, cfg, sched, d, st, pay, ids).phase == Idle
    ensures AllPriced(GetCart(st, ctx.user))
    ensures var o := Compose(ctx, d, Summarize(GetCart(st, ctx.user)).value);
      o.total == SumPrices(GetCart(st, ctx.user)) && SubtotalSum(o.lines) == o.total
  {
    SubtotalsAddUp(GetCart(st, ctx.user));
  }

  /** `qr_confirm`. Without a pending order only a notice goes out. With one
      the operator is told once, the QR message is deleted, the current cart
      becomes the last order and is emptied, and the QR session is cleared. */
  function QrConfirm(ctx: Ctx, d: UserData, st: Store): (r: Outcome)
    ensures d.pending.None? ==> r == Outcome(d, st, [ToUser(NoActiveOrder)])
    ensures d.pending.Some? ==>
      && OperatorCount(r.effects) == 1
      && r.effects[0] == ToOperator(QrOrder(d.pending.value, ctx.stamp, Handle(ctx.username), ctx.user))
      && r.store == Archive(st, ctx.user, GetCart(st, ctx.user))
      && QrCleared(d, r.data)
      && (forall j :: j in d.qrJobs ==> Unschedule(j) in r.effects)
  {
    match d.pending
    case None => Outcome(d, st, [ToUser(NoActiveOrder)])
    case Some(order) =>
      var tail := DeleteQr(d.qrMessageId) + Unschedules(d.qrJobs) + [ToUser(ConfirmThanks)];
      var effects := [ToOperator(QrOrder(order, ctx.stamp, Handle(ctx.username), ctx.user))] + tail;
      OperatorCountAppend([ToOperator(QrOrder(order, ctx.stamp, Handle(ctx.username), ctx.user))],
        DeleteQr(d.qrMessageId) + Unschedules(d.qrJobs) + [ToUser(ConfirmThanks)]);
      OperatorCountZero(DeleteQr(d.qrMessageId) + Unschedules(d.qrJobs) + [ToUser(ConfirmThanks)]);
      OperatorCountSingle(ToOperator(QrOrder(order, ctx.stamp, Handle(ctx.username), ctx.user)));
      Outcome(ClearQr(d), Archive(st, ctx.user, GetCart(st, ctx.user)), effects)
  }

  /** `"@" + username`, or a dash when the user has none. */
  function Handle(username: string): (h: string)
    ensures username != "" ==> h == "@" + username
    ensures username == "" ==> h == "—"
  {
    if username != "" then "@" + username else "—"
  }

  /** `qr_repeat`: a fresh QR message replaces the old one; the awaiting flag
      is set (even with no pending order), the jobs and the cart are kept. */
  function QrRepeat(ctx: Ctx, d: UserData, st: Store): (r: Outcome)
    ensures r.data == d.(awaiting := true, qrMessageId := Some(ctx.messageId))
    ensures r.store == st && OperatorCount(r.effects) == 0
    ensures d.qrMessageId.Some? && d.qrMessageId.value != 0 ==> DeleteMessage(d.qrMessageId.value) in r.effects
  {
    var effects := DeleteQr(d.qrMessageId) + [ToUser(QrShown(None))];
    OperatorCountZero(effects);
    Outcome(d.(awaiting := true, qrMessageId := Some(ctx.messageId)), st, effects)
  }

  /** `qr_cancel`: the QR session is cleared; cart and last order stay. */
  function QrCancel(d: UserData, st: Store): (r: Outcome)
    ensures QrCleared(d, r.data) && r.store == st && OperatorCount(r.effects) == 0
    ensures forall j :: j in d.qrJobs ==> Unschedule(j) in r.effects
  {
    var effects := DeleteQr(d.qrMessageId) + Unschedules(d.qrJobs) + [ToUser(QrCancelled)];
    OperatorCountZero(effects);
    Outcome(ClearQr(d), st, effects)
  }

  /** `_qr_reminder_job`: a reminder only while the user is awaiting. */
  function ReminderJob(d: UserData, st: Store): (r: Outcome)
    ensures r.data == d && r.store == st && OperatorCount(r.effects) == 0
    ensures !d.awaiting ==> r.effects == []
    ensures d.awaiting ==> r.effects == [ToUser(QrReminder)]
  {
    if !d.awaiting then Outcome(d, st, []) else Outcome(d, st, [ToUser(QrReminder)])
  }

  /** `_qr_timeout_job`: nothing unless awaiting; then as `qr_cancel`. */
  function TimeoutJob(d: UserData, st: Store): (r: Outcome)
    ensures !d.awaiting ==> r == Outcome(d, st, [])
    ensures d.awaiting ==> QrCleared(d, r.data)
    ensures d.awaiting ==> forall j :: j in d.qrJobs ==> Unschedule(j) in r.effects
    ensures r.store == st && OperatorCount(r.effects) == 0
  {
    if !d.awaiting then Outcome(d, st, [])
    else
      var effects := DeleteQr(d.qrMessageId) + Unschedules(d.qrJobs) + [ToUser(QrExpired)];
      OperatorCountZero(effects);
      Outcome(ClearQr(d), st, effects)
  }

  /** A second confirmation finds nothing pending: no operator message and
      no change to the cart or the last order. */
  lemma ConfirmTwice(ctx: Ctx, ctx2: Ctx, d: UserData, st: Store)
    ensures var o := QrConfirm(ctx, d, st);
      var o2 := QrConfirm(ctx2, o.data, o.store);
      o2.store == o.store && OperatorCount(o2.effects) == 0 && o2.data == o.data
  {
  }

  /** After a QR session was requested and before it ends, `qr_repeat` can
      still leave the flag set with nothing pending. */
  lemma RepeatWithoutPending(ctx: Ctx, d: UserData, st: Store)
    requires d.pending.None?
    ensures QrRepeat(ctx, d, st).data.awaiting && QrRepeat(ctx, d, st).data.pending.None?
  {
  }

  /** The events of the QR sub-protocol. */
  datatype QrEvent = ConfirmPressed(ctx: Ctx) | RepeatPressed(ctx: Ctx) | CancelPressed | ReminderFires | TimeoutFires

  function QrStep(d: UserData, st: Store, e: QrEvent): Outcome {
    match e
    case ConfirmPressed(ctx) => QrConfirm(ctx, d, st)
    case RepeatPressed(ctx) => QrRepeat(ctx, d, st)
    case CancelPressed => QrCancel(d, st)
    case ReminderFires => ReminderJob(d, st)
    case TimeoutFires => TimeoutJob(d, st)
  }

  /** A run of QR events; the effects are concatenated in order. */
  function QrRun(d: UserData, st: Store, events: seq<QrEvent>): Outcome
    decreases |events|
  {
    if |events| == 0 then Outcome(d, st, [])
    else
      var o := QrStep(d, st, events[0]);
      var rest := QrRun(o.data, o.store, events[1..]);
      Outcome(rest.data, rest.store, o.effects + rest.effects)
  }

  /** Whatever the user presses and whichever jobs fire, the operator hears
      about a pending order at most once, and not at all without one. */
  lemma {:induction false} AtMostOneNotification(d: UserData, st: Store, events: seq<QrEvent>)
    ensures OperatorCount(QrRun(d, st, events).effects) <= if d.pending.Some? then 1 else 0
    decreases |events|
  {
    if |events| > 0 {
      var o := QrStep(d, st, events[0]);
      QrStepNotifies(d, st, events[0]);
      AtMostOneNotification(o.data, o.store, events[1..]);
      OperatorCountAppend(o.effects, QrRun(o.data, o.store, events[1..]).effects);
    }
  }

  /** One event notifies the operator only about a pending order, and a
      notification leaves nothing pending. */
  lemma QrStepNotifies(d: UserData, st: Store, e: QrEvent)
    ensures var o := QrStep(d, st, e);
      OperatorCount(o.effects) + (if o.data.pending.Some? then 1 else 0) <= if d.pending.Some? then 1 else 0
  {
  }

  predicate NoConfirm(events: seq<QrEvent>) {
    forall i :: 0 <= i < |events| ==> !events[i].ConfirmPressed?
  }

  /** Without a confirmation the cart and the last order are never touched. */
  lemma {:induction false} CartUntouchedWithoutConfirm(d: UserData, st: Store, events: seq<QrEvent>)
    requires NoConfirm(events)
    ensures QrRun(d, st, events).store == st
    decreases |events|
  {
    if |events| > 0 {
      var o := QrStep(d, st, events[0]);
      assert NoConfirm(events[1..]) by {
        forall i | 0 <= i < |events| - 1 ensures !events[1..][i].ConfirmPressed? {
          assert events[1..][i] == events[i + 1];
        }
      }
      CartUntouchedWithoutConfirm(o.data, o.store, events[1..]);
    }
  }

  /** A pending order is always being awaited. */
  predicate PendingAwaited(d: UserData) {
    d.pending.Some? ==> d.awaiting
  }

  lemma QrStepKeepsPendingAwaited(d: UserData, st: Store, e: QrEvent)
    requires PendingAwaited(d)
    ensures PendingAwaited(QrStep(d, st, e).data)
    ensures QrStep(d, st, e).data.pending.Some? ==> QrStep(d, st, e).data.pending == d.pending
  {
  }

  lemma {:induction false} UnschedulesSets(jobs: seq<Job>)
    ensures Unscheduled(Unschedules(jobs)) == JobSet(jobs)
    ensures Scheduled(Unschedules(jobs)) == {}
  {
    if |jobs| > 0 {
      var init := jobs[..|jobs| - 1];
      UnschedulesSets(init);
      assert Unschedules(jobs)[..|jobs| - 1] == Unschedules(init);
      assert JobSet(jobs) == JobSet(init) + {jobs[|jobs| - 1]} by {
        forall j | j in JobSet(jobs) ensures j in JobSet(init) + {jobs[|jobs| - 1]} {
          var i :| 0 <= i < |jobs| && jobs[i] == j;
          if i < |jobs| - 1 { assert init[i] == j; }
        }
        forall j | j in JobSet(init) ensures j in JobSet(jobs) {
          var i :| 0 <= i < |init| && init[i] == j;
          assert jobs[i] == j;
        }
      }
    }
  }

  lemma ScheduleEffectsSets(cfg: Settings, ids: (nat, nat))
    ensures Scheduled(ScheduleEffects(cfg, ids)) == JobSet(QrJobs(ids))
    ensures Unscheduled(ScheduleEffects(cfg, ids)) == {}
  {
    var es := ScheduleEffects(cfg, ids);
    var first := es[..1];
    assert first[..0] == [];
    assert Scheduled(first) == {Job(ids.0, Reminder)} && Unscheduled(first) == {};
    assert es[..|es| - 1] == first;
    assert Scheduled(es) == {Job(ids.0, Reminder), Job(ids.1, Timeout)};
    assert JobSet(QrJobs(ids)) == {Job(ids.0, Reminder), Job(ids.1, Timeout)} by {
      assert QrJobs(ids)[0] == Job(ids.0, Reminder);
      assert QrJobs(ids)[1] == Job(ids.1, Timeout);
    }
  }

  /** The corrected scheduling keeps the queue in step with the record: the
      old jobs come off, and only the two recorded ones go on. */
  lemma ScheduleQrJobsTracks(cfg: Settings, d: UserData, ids: (nat, nat))
    ensures TracksJobs(d, ScheduleQrJobs(cfg, d, ids).0, ScheduleQrJobs(cfg, d, ids).1)
  {
    UnschedulesSets(d.qrJobs);
    ScheduleEffectsSets(cfg, ids);
    JobSetsAppend(Unschedules(d.qrJobs), ScheduleEffects(cfg, ids));
  }

  /** A second QR checkout while the first still waits, as the code has it:
      the first session's timeout stays on the queue although the record no
      longer holds it, and when it fires it cancels the second session, whose
      own jobs it takes off the queue. */
  lemma StaleTimeoutCancelsNewSession(cfg: Settings, st: Store, first: OrderText, second: OrderText)
    ensures var d0 := Fresh.(pending := Some(first), awaiting := true, qrMessageId := Some(5), qrJobs := QrJobs((0, 1)));
      var live := {Job(0, Reminder), Job(1, Timeout)};
      var d1 := d0.(pending := Some(second), qrMessageId := Some(6));
      var s := ScheduleQrJobsAsWritten(cfg, d1, (2, 3));
      && Job(1, Timeout) in ApplyJobs(live, s.1)
      && Job(1, Timeout) !in JobSet(s.0.qrJobs)
      && s.0.pending == Some(second)
      && TimeoutJob(s.0, st).data.pending.None?
      && Unschedule(Job(3, Timeout)) in TimeoutJob(s.0, st).effects
  {
    var d0 := Fresh.(pending := Some(first), awaiting := true, qrMessageId := Some(5), qrJobs := QrJobs((0, 1)));
    var d1 := d0.(pending := Some(second), qrMessageId := Some(6));
    var s := ScheduleQrJobsAsWritten(cfg, d1, (2, 3));
    ScheduleEffectsSets(cfg, (2, 3));
    assert JobSet(s.0.qrJobs) == {Job(2, Reminder), Job(3, Timeout)} by {
      assert s.0.qrJobs[0] == Job(2, Reminder) && s.0.qrJobs[1] == Job(3, Timeout);
    }
    assert Job(3, Timeout) in s.0.qrJobs by { assert s.0.qrJobs[1] == Job(3, Timeout); }
  }

  /** The corrected scheduling in the same situation: only the second
      session's jobs are live afterwards. */
  lemma NoStaleTimeoutWhenCorrected(cfg: Settings, first: OrderText, second: OrderText)
    ensures var d0 := Fresh.(pending := Some(first), awaiting := true, qrMessageId := Some(5), qrJobs := QrJobs((0, 1)));
      var live := {Job(0, Reminder), Job(1, Timeout)};
      var d1 := d0.(pending := Some(second), qrMessageId := Some(6));
      var s := ScheduleQrJobs(cfg, d1, (2, 3));
      ApplyJobs(live, s.1) <= {Job(2, Reminder), Job(3, Timeout)}
  {
    var d0 := Fresh.(pending := Some(first), awaiting := true, qrMessageId := Some(5), qrJobs := QrJobs((0, 1)));
    var live := {Job(0, Reminder), Job(1, Timeout)};
    var d1 := d0.(pending := Some(second), qrMessageId := Some(6));
    assert live <= JobSet(d1.qrJobs) by {
      assert d1.qrJobs[0] == Job(0, Reminder) && d1.qrJobs[1] == Job(1, Timeout);
    }
    ScheduleQrJobsTracks(cfg, d1, (2, 3));
    var s := ScheduleQrJobs(cfg, d1, (2, 3));
    TrackedLive(live, d1, s.0, s.1);
    assert JobSet(s.0.qrJobs) == {Job(2, Reminder), Job(3, Timeout)} by {
      assert s.0.qrJobs[0] == Job(2, Reminder) && s.0.qrJobs[1] == Job(3, Timeout);
    }
  }

  /** Clearing the session: take every recorded job off, record none. */
  lemma ClearingTracks(d: UserData, d': UserData, pre: seq<Effect>, post: seq<Effect>)
    requires NoJobs(pre) && NoJobs(post) && d'.qrJobs == []
    ensures TracksJobs(d, d', pre + Unschedules(d.qrJobs) + post)
  {
    NoJobsSets(pre);
    NoJobsSets(post);
    UnschedulesSets(d.qrJobs);
    JobSetsAppend(pre, Unschedules(d.qrJobs));
    JobSetsAppend(pre + Unschedules(d.qrJobs), post);
  }

  /** Every QR event keeps the queue in step with the record. */
  lemma QrStepTracks(d: UserData, st: Store, e: QrEvent)
    ensures TracksJobs(d, QrStep(d, st, e).data, QrStep(d, st, e).effects)
  {
    match e
    case ConfirmPressed(ctx) => ConfirmTracks(ctx, d, st);
    case RepeatPressed(ctx) => RepeatTracks(ctx, d, st);
    case CancelPressed => CancelTracks(d, st);
    case ReminderFires => NoJobsTracks(d, d, ReminderJob(d, st).effects);
    case TimeoutFires => TimeoutTracks(d, st);
  }

  lemma ConfirmTracks(ctx: Ctx, d: UserData, st: Store)
    ensures TracksJobs(d, QrConfirm(ctx, d, st).data, QrConfirm(ctx, d, st).effects)
  {
    if d.pending.Some? {
      var op := ToOperator(QrOrder(d.pending.value, ctx.stamp, Handle(ctx.username), ctx.user));
      ClearingTracks(d, ClearQr(d), [op] + DeleteQr(d.qrMessageId), [ToUser(ConfirmThanks)]);
      assert [op] + (DeleteQr(d.qrMessageId) + Unschedules(d.qrJobs) + [ToUser(ConfirmThanks)])
        == [op] + DeleteQr(d.qrMessageId) + Unschedules(d.qrJobs) + [ToUser(ConfirmThanks)];
    } else {
      NoJobsTracks(d, d, [ToUser(NoActiveOrder)]);
    }
  }

  lemma RepeatTracks(ctx: Ctx, d: UserData, st: Store)
    ensures TracksJobs(d, QrRepeat(ctx, d, st).data, QrRepeat(ctx, d, st).effects)
  {
    NoJobsTracks(d, QrRepeat(ctx, d, st).data, DeleteQr(d.qrMessageId) + [ToUser(QrShown(None))]);
  }

  lemma CancelTracks(d: UserData, st: Store)
    ensures TracksJobs(d, QrCancel(d, st).data, QrCancel(d, st).effects)
  {
    ClearingTracks(d, ClearQr(d), DeleteQr(d.qrMessageId), [ToUser(QrCancelled)]);
  }

  lemma TimeoutTracks(d: UserData, st: Store)
    ensures TracksJobs(d, TimeoutJob(d, st).data, TimeoutJob(d, st).effects)
  {
    if d.awaiting {
      ClearingTracks(d, ClearQr(d), DeleteQr(d.qrMessageId), [ToUser(QrExpired)]);
    } else {
      NoJobsTracks(d, d, []);
    }
  }

  /** The jobs of `ask_payment`: every branch but a successful QR choice
      leaves the queue and the handles alone; the QR choice queues exactly
      the two jobs it records, and takes nothing off the queue as the code
      has it, or every earlier recorded job when corrected. */
  lemma AskPaymentTracks(ctx: Ctx, cfg: Settings, sched: Scheduling, d: UserData, st: Store, pay: PayMethod, ids: (nat, nat))
    ensures var r := AskPaymentStep(ctx, cfg, sched, d, st, pay, ids);
      !(r.phase == Idle && pay == Qr) ==>
        r.data.qrJobs == d.qrJobs && Scheduled(r.effects) == {} && Unscheduled(r.effects) == {}
    ensures var r := AskPaymentStep(ctx, cfg, sched, d, st, pay, ids);
      r.phase == Idle && pay == Qr ==>
        && r.data.qrJobs == QrJobs(ids) && Scheduled(r.effects) == JobSet(QrJobs(ids))
        && (sched == AsWritten ==> Unscheduled(r.effects) == {})
        && (sched == Corrected ==> Unscheduled(r.effects) == JobSet(d.qrJobs))
  {
    if QrOnly(ctx.hour, cfg.earlyHour, cfg.lateHour) && pay != Qr {
      NoJobsSets([ToUser(QrOnlyWarning)]);
    } else {
      var totals := Summarize(GetCart(st, ctx.user));
      if totals.Some? {
        var order := Compose(ctx, d, totals.value);
        match pay
        case Cash => NoJobsSets(PayCash(ctx, d, st, order).effects);
        case Qr =>
        case Online => NoJobsSets(PayOnline(ctx, d, st, order).effects);
      }
    }
  }

  /** `ask_payment` choosing QR with a priced cart always starts a waiting
      session on the given ids. */
  lemma AskPaymentQr(ctx: Ctx, cfg: Settings, sched: Scheduling, d: UserData, st: Store, ids: (nat, nat))
    requires Summary.AllPriced(GetCart(st, ctx.user))
    ensures var r := AskPaymentStep(ctx, cfg, sched, d, st, Qr, ids);
      && r.phase == Idle && r.data.awaiting && r.data.pending.Some? && r.data.qrJobs == QrJobs(ids)
      && Scheduled(r.effects) == JobSet(QrJobs(ids))
      && (sched == AsWritten ==> Unscheduled(r.effects) == {})
      && (sched == Corrected ==> Unscheduled(r.effects) == JobSet(d.qrJobs))
  {
    var totals := Summarize(GetCart(st, ctx.user));
    assert totals.Some?;
    var q := PayQr(ctx, cfg, sched, d, st, Compose(ctx, d, totals.value), ids);
    assert AskPaymentStep(ctx, cfg, sched, d, st, Qr, ids) == q;
  }

  /** A QR choice changes only the four fields of the QR session: the
      name, phone, address, comment, order id, checkout and browsing flags
      stay as they were. */
  lemma AskPaymentQrRecord(ctx: Ctx, cfg: Settings, sched: Scheduling, d: UserData, st: Store, ids: (nat, nat))
    requires Summary.AllPriced(GetCart(st, ctx.user))
    ensures AskPaymentStep(ctx, cfg, sched, d, st, Qr, ids).data ==
      d.(pending := Some(Compose(ctx, d, Summarize(GetCart(st, ctx.user)).value)), awaiting := true,
         qrMessageId := Some(ctx.messageId), qrJobs := QrJobs(ids))
  {
    var totals := Summarize(GetCart(st, ctx.user));
    assert totals.Some?;
    var q := PayQr(ctx, cfg, sched, d, st, Compose(ctx, d, totals.value), ids);
    assert AskPaymentStep(ctx, cfg, sched, d, st, Qr, ids) == q;
  }

  /** `ask_payment` with any other method, or with an unpriced cart, leaves
      the jobs and their record alone and keeps a pending order awaited. */
  lemma AskPaymentNoSession(ctx: Ctx, cfg: Settings, sched: Scheduling, d: UserData, st: Store, pay: PayMethod, ids: (nat, nat))
    requires pay != Qr || !Summary.AllPriced(GetCart(st, ctx.user))
    ensures var r := AskPaymentStep(ctx, cfg, sched, d, st, pay, ids);
      && r.data.qrJobs == d.qrJobs && Scheduled(r.effects) == {} && Unscheduled(r.effects) == {}
      && (PendingAwaited(d) ==> PendingAwaited(r.data))
  {
    AskPaymentTracks(ctx, cfg, sched, d, st, pay, ids);
    if PendingAwaited(d) {
      AskPaymentKeepsPendingAwaited(ctx, cfg, sched, d, st, pay, ids);
    }
  }

  /** `ask_payment` never leaves an order pending without awaiting it. */
  lemma AskPaymentKeepsPendingAwaited(ctx: Ctx, cfg: Settings, sched: Scheduling, d: UserData, st: Store, pay: PayMethod, ids: (nat, nat))
    requires PendingAwaited(d)
    ensures PendingAwaited(AskPaymentStep(ctx, cfg, sched, d, st, pay, ids).data)
  {
  }

  /** No QR button and no job records new jobs: the handles are kept or
      dropped. */
  lemma QrStepKeepsOrDropsJobs(d: UserData, st: Store, e: QrEvent)
    ensures QrStep(d, st, e).data.qrJobs == d.qrJobs || QrStep(d, st, e).data.qrJobs == []
  {
  }
}
