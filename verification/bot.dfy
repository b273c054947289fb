/** bot.py: which handler an update reaches, and the two generic handlers.
    The application looks at `/start` first, then at the checkout
    conversation (its entry button, the handler of the current step, its
    cancel fallback), then at the generic inline-button handler, then at
    the generic text handler. The model follows one user: the phase of
    their conversation, their record, the shared cart store, the jobs live
    on the queue and the next fresh job id. */
module Bot {
  import opened Results
  import opened Text
  import opened CartStore
  import opened CartView
  import Summary
  import opened Sheets
  import opened Menu
  import opened Config
  import opened Session
  import opened Order

  const MenuText := "📋 Меню"
  const CartText := "🛒 Корзина"
  const RepeatText := "🔁 Повторить заказ"
  const ContactsText := "📞 Контакты"

  /** A pattern `^w$` as Python's `re` applies it: `$` also matches just
      before a final newline. */
  predicate RegexLine(s: string, w: string) {
    s == w || s == w + "\n"
  }

  /** The state handler of ASK_PAYMENT, `^pay:(cash|qr|online)$`. */
  predicate PayPattern(data: string) {
    RegexLine(data, "pay:cash") || RegexLine(data, "pay:qr") || RegexLine(data, "pay:online")
  }

  /** `ask_payment` compares `data.split(":", 1)[1]` with "cash" and "qr";
      anything else is taken as online. */
  function MethodOf(data: string): (p: PayMethod)
    ensures data == "pay:cash" ==> p == Cash
    ensures data == "pay:qr" ==> p == Qr
    ensures PayPattern(data) && data != "pay:cash" && data != "pay:qr" ==> p == Online
  {
    var rest := if |data| >= 4 then data[4..] else "";
    if rest == "cash" then Cash else if rest == "qr" then Qr else Online
  }

  /** Effects that only talk to the user: messages and clearing the chat. */
  predicate Plain(effects: seq<Effect>) {
    forall i :: 0 <= i < |effects| ==> effects[i].ToUser? || effects[i].ClearChat?
  }

  lemma PlainQuiet(effects: seq<Effect>)
    requires Plain(effects)
    ensures NoJobs(effects) && OperatorCount(effects) == 0
  {
    OperatorCountZero(effects);
  }

  /** The QR session part of the record is left as it was. */
  predicate SameQr(d: UserData, d': UserData) {
    && d'.pending == d.pending && d'.awaiting == d.awaiting
    && d'.qrMessageId == d.qrMessageId && d'.qrJobs == d.qrJobs
  }

  /** `show_cart_message` and the end of `inline_cart_handler`: the chat is
      cleared and the cart view sent; where a price is not an int the view
      raises after the chat was cleared. */
  function CartEffects(st: Store, u: UserId): (es: seq<Effect>)
    ensures Plain(es) && |es| >= 1 && es[0] == ClearChat
    ensures |es| == 1 <==> BuildView(GetCart(st, u)).None?
    ensures GetCart(st, u) == [] ==> es == [ClearChat, ToUser(CartScreen(EmptyCart))]
    ensures ToUser(CheckoutCancelled) !in es
  {
    match BuildView(GetCart(st, u))
    case None => [ClearChat]
    case Some(v) => [ClearChat, ToUser(CartScreen(v))]
  }

  /** `show_dishes_for_text`: an unknown text is ignored; otherwise the
      flags move to the dish list, and every dish of the sheet is shown
      with its card, then the keyboard tail. A sheet that cannot be read
      raises after the flags moved. */
  function ShowDishes(cat: Catalog, d: UserData, st: Store, text: string): (r: Outcome)
    ensures r.store == st && Plain(r.effects)
    ensures r.data == d.(browse := ChooseCategory(d.browse, cat.names, text))
    ensures ResolveCategory(cat.names, text).None? ==> r.effects == []
    ensures ResolveCategory(cat.names, text).Some? && ResolveCategory(cat.names, text).value in cat.sheets ==>
      var ds := cat.sheets[ResolveCategory(cat.names, text).value];
      && |r.effects| == |ds| + 2
      && r.effects[0] == ClearChat && r.effects[|ds| + 1] == ToUser(DishesTail)
      && (forall i :: 0 <= i < |ds| ==>
            r.effects[i + 1] == ToUser(DishShown(DishCard(ResolveCategory(cat.names, text).value, ds[i]))))
  {
    match ResolveCategory(cat.names, text)
    case None => Outcome(d, st, [])
    case Some(sheet) =>
      var d' := d.(browse := ChooseCategory(d.browse, cat.names, text));
      match Dishes(cat, sheet)
      case None => Outcome(d', st, [ClearChat])
      case Some(ds) => Outcome(d', st, DishList(sheet, ds))
  }

  /** The messages of a dish list: a chat clear, one card per dish in sheet
      order, and the keyboard tail. */
  function DishList(sheet: string, ds: seq<Record>): (es: seq<Effect>)
    ensures |es| == |ds| + 2 && Plain(es)
    ensures es[0] == ClearChat && es[|ds| + 1] == ToUser(DishesTail)
    ensures forall i :: 0 <= i < |ds| ==> es[i + 1] == ToUser(DishShown(DishCard(sheet, ds[i])))
  {
    var cards := DishCards(sheet, ds);
    var shown := seq(|ds|, i requires 0 <= i < |ds| => ToUser(DishShown(cards[i])));
    [ClearChat] + shown + [ToUser(DishesTail)]
  }

  /** `text_handler`. "Cancel" ends a checkout only while `in_checkout` is
      set; "Back" returns from a dish list to the categories and from
      anywhere else to the main menu; "Menu" shows the categories; "Cart"
      shows the cart; "Repeat order" puts the last order back in the cart
      unless it is empty; "Contacts" shows the contacts; any other text
      picks a category while the category list is on screen. Only the cart
      of the sender and the browsing and checkout flags can change. */
  function TextHandler(ctx: Ctx, cat: Catalog, d: UserData, st: Store, text: string): (r: Outcome)
    ensures Plain(r.effects) && SameQr(d, r.data) && OnlyCartOf(st, r.store, ctx.user)
    ensures r.data == d.(browse := r.data.browse, inCheckout := r.data.inCheckout)
    ensures text == CancelText && d.inCheckout ==>
      r.data == d.(inCheckout := false) && r.store == st && ToUser(CheckoutCancelled) in r.effects
    ensures !(text == CancelText && d.inCheckout) ==>
      r.data.inCheckout == d.inCheckout && ToUser(CheckoutCancelled) !in r.effects
    ensures text == BackText ==> r.data.browse == GoBack(d.browse)
    ensures text == BackText ==>
      r.effects == [ClearChat, ToUser(if d.browse.inDishes then CategoryMenu(CategoryRows(cat.names)) else MainMenu)]
    ensures text in {CartText, RepeatText, ContactsText} ==> r.data == d
    ensures text == CartText ==> r == Outcome(d, st, CartEffects(st, ctx.user))
    ensures text == ContactsText ==> r == Outcome(d, st, [ClearChat, ToUser(ContactsInfo)])
    ensures text == MenuText ==> r.data.browse == Browsing(true, false)
    ensures text == RepeatText && GetLastOrder(st, ctx.user) == [] ==> r.store == st
    ensures text == RepeatText && GetLastOrder(st, ctx.user) != [] ==>
      GetCart(r.store, ctx.user) == GetLastOrder(st, ctx.user)
    ensures text != RepeatText ==> r.store == st
    ensures text !in {CancelText, BackText, MenuText, CartText, RepeatText, ContactsText} ==>
      r == (if d.browse.inCategories then ShowDishes(cat, d, st, text) else Outcome(d, st, []))
  {
    if text == CancelText && d.inCheckout then
      var t := CancelCheckout(d, st);
      Outcome(t.data, t.store, t.effects)
    else if text == BackText then
      var rows := if d.browse.inDishes then CategoryMenu(CategoryRows(cat.names)) else MainMenu;
      Outcome(d.(browse := GoBack(d.browse)), st, [ClearChat, ToUser(rows)])
    else if text == MenuText then
      Outcome(d.(browse := ShowCategories(d.browse)), st, [ClearChat, ToUser(CategoryMenu(CategoryRows(cat.names)))])
    else if text == CartText then
      Outcome(d, st, CartEffects(st, ctx.user))
    else if text == RepeatText then
      RepeatOrder(ctx, d, st)
    else if text == ContactsText then
      Outcome(d, st, [ClearChat, ToUser(ContactsInfo)])
    else if d.browse.inCategories then
      ShowDishes(cat, d, st, text)
    else
      Outcome(d, st, [])
  }

  /** "Repeat order": an empty last order is only reported; otherwise it
      replaces the sender's cart, which is then shown. */
  function RepeatOrder(ctx: Ctx, d: UserData, st: Store): (r: Outcome)
    ensures Plain(r.effects) && r.data == d && OnlyCartOf(st, r.store, ctx.user)
    ensures ToUser(CheckoutCancelled) !in r.effects
    ensures GetLastOrder(st, ctx.user) == [] ==> r.store == st
    ensures GetLastOrder(st, ctx.user) != [] ==> GetCart(r.store, ctx.user) == GetLastOrder(st, ctx.user)
  {
    var items := GetLastOrder(st, ctx.user);
    if items == [] then Outcome(d, st, [ClearChat, ToUser(NothingToRepeat)])
    else
      var st' := Replace(st, ctx.user, items);
      var shown := CartEffects(st', ctx.user);
      ClearThen(shown);
      Outcome(d, st', [ClearChat] + shown)
  }

  lemma ClearThen(es: seq<Effect>)
    requires Plain(es) && ToUser(CheckoutCancelled) !in es
    ensures Plain([ClearChat] + es) && ToUser(CheckoutCancelled) !in [ClearChat] + es
  {
    assert forall i :: 1 <= i <= |es| ==> ([ClearChat] + es)[i] == es[i - 1];
  }

  /** The item `inline_handler` appends for a dish. */
  function DishItem(sheet: string, rec: Record, id: string): Item {
    Item(Get(rec, NameKey, "Без названия"), Get(rec, PriceKey, "0"), sheet, id)
  }

  /** `next(item for item in dishes if str(item.get("ID")) == dish_id)`. */
  function FindDish(ds: seq<Record>, id: string): (r: Option<nat>)
    ensures r.Some? ==> r.value < |ds| && IdText(ds[r.value]) == id
    ensures r.Some? ==> forall j :: 0 <= j < r.value ==> IdText(ds[j]) != id
    ensures r.None? ==> forall j :: 0 <= j < |ds| ==> IdText(ds[j]) != id
  {
    if |ds| == 0 then None
    else if IdText(ds[0]) == id then Some(0)
    else match FindDish(ds[1..], id)
      case None => None
      case Some(i) => Some(i + 1)
  }

  /** The cart of `u` gains the first dish of `ds` with id `id`, or stays as
      it is when no dish has that id. */
  predicate AddsFirstDish(st: Store, st': Store, u: UserId, sheet: string, ds: seq<Record>, id: string) {
    || ((forall j :: 0 <= j < |ds| ==> IdText(ds[j]) != id) && st' == st)
    || (exists k :: (0 <= k < |ds| && IdText(ds[k]) == id && (forall j :: 0 <= j < k ==> IdText(ds[j]) != id) &&
         GetCart(st', u) == GetCart(st, u) + [DishItem(sheet, ds[k], id)]))
  }

  /** The `add:` branch of `inline_handler`: the data is split three ways
      (fewer than two colons raise), the sheet is read (a missing sheet
      raises), and the first dish with the id is appended; the
      confirmation is sent even when no dish has that id. */
  function AddToCart(u: UserId, cat: Catalog, st: Store, data: string): (r: (Store, seq<Effect>))
    ensures OnlyCartOf(st, r.0, u) && Plain(r.1)
    ensures Split3(data).None? || Split3(data).value.1 !in cat.sheets ==> r == (st, [])
    ensures Split3(data).Some? && Split3(data).value.1 in cat.sheets ==>
      && r.1 == [ToUser(AddedToCart)]
      && AddsFirstDish(st, r.0, u, Split3(data).value.1, cat.sheets[Split3(data).value.1], Split3(data).value.2)
  {
    match Split3(data)
    case None => (st, [])
    case Some(parts) =>
      var sheet := parts.1;
      var id := parts.2;
      match Dishes(cat, sheet)
      case None => (st, [])
      case Some(ds) =>
        match FindDish(ds, id)
        case None => (st, [ToUser(AddedToCart)])
        case Some(k) => (Add(st, u, DishItem(sheet, ds[k], id)), [ToUser(AddedToCart)])
  }

  /** The "add" button of a dish card from a sheet whose name holds no
      colon appends, with that sheet and id, the first dish of the sheet
      sharing the card's id: the dish itself when ids are unique. */
  lemma AddButtonAddsDish(u: UserId, cat: Catalog, st: Store, sheet: string, i: nat)
    requires sheet in cat.sheets && ':' !in sheet && i < |cat.sheets[sheet]|
    ensures var ds := cat.sheets[sheet];
      var r := AddToCart(u, cat, st, DishCards(sheet, ds)[i].data);
      exists k :: 0 <= k <= i && IdText(ds[k]) == IdText(ds[i]) &&
        GetCart(r.0, u) == GetCart(st, u) + [DishItem(sheet, ds[k], IdText(ds[i]))]
    ensures var ds := cat.sheets[sheet];
      (forall j :: 0 <= j < i ==> IdText(ds[j]) != IdText(ds[i])) ==>
      GetCart(AddToCart(u, cat, st, DishCards(sheet, ds)[i].data).0, u) ==
        GetCart(st, u) + [DishItem(sheet, ds[i], IdText(ds[i]))]
  {
    var ds := cat.sheets[sheet];
    AddDataRoundTrip(sheet, ds[i]);
    assert DishCards(sheet, ds)[i] == DishCard(sheet, ds[i]);
    var k := FindDish(ds, IdText(ds[i])).value;
    assert k <= i;
  }

  /** `inline_cart_handler`: "back" clears the chat and shows the main
      menu; `del:` and "clear" change the cart and show it again (`del:`
      data with fewer than two colons raises before anything is sent). */
  function CartButton(u: UserId, st: Store, data: string): (r: (Store, seq<Effect>))
    ensures OnlyCartOf(st, r.0, u) && Plain(r.1)
    ensures r.0 == CartCallback(st, u, data)
    ensures data == "back" ==> r == (st, [ClearChat, ToUser(MainMenu)])
    ensures data == "clear" ==> GetCart(r.0, u) == [] && r.1 == [ClearChat, ToUser(CartScreen(EmptyCart))]
  {
    var st' := CartCallback(st, u, data);
    if data == "back" then (st', [ClearChat, ToUser(MainMenu)])
    else if StartsWith(data, "del:") && Split3(data).None? then (st', [])
    else (st', CartEffects(st', u))
  }

  /** `inline_handler`: the three QR buttons, the `add:` button, the cart
      buttons; anything else (for instance "checkout" while a conversation
      is already open) is ignored. */
  function InlineHandler(ctx: Ctx, cat: Catalog, d: UserData, st: Store, data: string): (r: Outcome)
    ensures data == "qr_confirm" ==> r == QrConfirm(ctx, d, st)
    ensures data == "qr_repeat" ==> r == QrRepeat(ctx, d, st)
    ensures data == "qr_cancel" ==> r == QrCancel(d, st)
    ensures data !in {"qr_confirm", "qr_repeat", "qr_cancel"} ==>
      r.data == d && Plain(r.effects) && OnlyCartOf(st, r.store, ctx.user)
    ensures (data !in {"qr_confirm", "qr_repeat", "qr_cancel"} && !StartsWith(data, "add:") &&
      !StartsWith(data, "del:") && data != "clear") ==> r.store == st
  {
    if data == "qr_confirm" then QrConfirm(ctx, d, st)
    else if data == "qr_repeat" then QrRepeat(ctx, d, st)
    else if data == "qr_cancel" then QrCancel(d, st)
    else if StartsWith(data, "add:") then
      var a := AddToCart(ctx.user, cat, st, data);
      Outcome(d, a.0, a.1)
    else if data == "clear" || data == "back" || StartsWith(data, "del:") then
      var c := CartButton(ctx.user, st, data);
      Outcome(d, c.0, c.1)
    else Outcome(d, st, [])
  }

  /** An update: the `/start` command, a text message (not a command), an
      inline button press, or a queued job coming due. */
  datatype Update = StartCommand | Text(ctx: Ctx, text: string) | Button(ctx: Ctx, data: string) | JobFires(job: Job)

  datatype Machine = Machine(phase: Phase, data: UserData, store: Store, live: set<Job>, nextId: nat)

  const Initial := Machine(Idle, Fresh, Empty, {}, 0)

  /** The next machine and what the update did. */
  datatype Reaction = Reaction(next: Machine, effects: seq<Effect>)

  function ByTurn(m: Machine, t: Turn): Reaction {
    Reaction(m.(phase := t.phase, data := t.data, store := t.store, live := ApplyJobs(m.live, t.effects)), t.effects)
  }

  /** A handler outside the conversation leaves its phase alone. */
  function ByOutcome(m: Machine, o: Outcome): Reaction {
    Reaction(m.(data := o.data, store := o.store, live := ApplyJobs(m.live, o.effects)), o.effects)
  }

  /** `start`: the browsing and checkout flags drop; the conversation, if
      one is open, stays where it was. */
  function Start(m: Machine): (r: Reaction)
    ensures r.next.phase == m.phase && r.next.store == m.store && r.next.live == m.live
    ensures !r.next.data.inCheckout && r.next.data.browse == Browsing(false, false)
    ensures r.next.data.(inCheckout := m.data.inCheckout, browse := m.data.browse) == m.data
  {
    var d := m.data.(browse := Browsing(false, false), inCheckout := false);
    NoJobsSets([ClearChat, ToUser(Welcome)]);
    ByOutcome(m, Outcome(d, m.store, [ClearChat, ToUser(Welcome)]))
  }

  /** A text message: the step handler of the open conversation, the cancel
      fallback in ASK_PAYMENT, or else the generic text handler. */
  function OnText(cfg: Settings, cat: Catalog, m: Machine, ctx: Ctx, text: string): Reaction {
    match m.phase
    case AskName => ByTurn(m, AskNameStep(ctx, m.data, m.store, text))
    case AskPhone => ByTurn(m, AskPhoneStep(m.data, m.store, text))
    case AskAddress => ByTurn(m, AskAddressStep(m.data, m.store, text))
    case AskComment => ByTurn(m, AskCommentStep(ctx, cfg, m.data, m.store, text))
    case AskPayment =>
      if RegexLine(text, CancelText) then ByTurn(m, CancelCheckout(m.data, m.store))
      else ByOutcome(m, TextHandler(ctx, cat, m.data, m.store, text))
    case Idle => ByOutcome(m, TextHandler(ctx, cat, m.data, m.store, text))
  }

  /** A button: "checkout" opens the conversation when none is open; in
      ASK_PAYMENT the three payment buttons go to `ask_payment`, which gets
      two fresh job ids; everything else goes to the inline handler. */
  function OnButton(sched: Scheduling, cfg: Settings, cat: Catalog, m: Machine, ctx: Ctx, data: string): Reaction {
    if m.phase == Idle && RegexLine(data, "checkout") then ByTurn(m, StartCheckout(m.data, m.store))
    else if m.phase == AskPayment && PayPattern(data) then Pay(sched, cfg, m, ctx, MethodOf(data))
    else ByOutcome(m, InlineHandler(ctx, cat, m.data, m.store, data))
  }

  /** `ask_payment` on the machine, with the next two job ids. */
  function Pay(sched: Scheduling, cfg: Settings, m: Machine, ctx: Ctx, pay: PayMethod): Reaction {
    var t := AskPaymentStep(ctx, cfg, sched, m.data, m.store, pay, (m.nextId, m.nextId + 1));
    var r := ByTurn(m, t);
    r.(next := r.next.(nextId := m.nextId + 2))
  }

  /** A job comes due only while it is on the queue, and leaves it. */
  function OnJob(m: Machine, job: Job): Reaction {
    if job !in m.live then Reaction(m, [])
    else
      var m1 := m.(live := m.live - {job});
      match job.kind
      case Reminder => ByOutcome(m1, ReminderJob(m.data, m.store))
      case Timeout => ByOutcome(m1, TimeoutJob(m.data, m.store))
  }

  function Route(cfg: Settings, cat: Catalog, m: Machine, u: Update): Reaction {
    match u
    case StartCommand => Start(m)
    case Text(ctx, text) => OnText(cfg, cat, m, ctx, text)
    case Button(ctx, data) => OnButton(AsWritten, cfg, cat, m, ctx, data)
    case JobFires(job) => OnJob(m, job)
  }

  /** `Route` with the corrected `_schedule_qr_jobs`; only the payment
      buttons differ. */
  function RouteCorrected(cfg: Settings, cat: Catalog, m: Machine, u: Update): Reaction {
    match u
    case Button(ctx, data) => OnButton(Corrected, cfg, cat, m, ctx, data)
    case _ => Route(cfg, cat, m, u)
  }

  /** The invariant the corrected scheduling keeps: a pending order is
      awaited, and every job on the queue is one the record holds a handle
      on (so a job that comes due belongs to the current QR session). */
  predicate Inv(m: Machine) {
    PendingAwaited(m.data) && m.live <= JobSet(m.data.qrJobs)
  }

  /** `j` was queued before every job of `jobs`. */
  predicate Earlier(j: Job, jobs: seq<Job>) {
    forall k :: k in jobs ==> j.id < k.id
  }

  /** What the code as written keeps: a pending order is awaited; every job
      on the queue and every recorded one carries an id already handed out;
      and a job on the queue that the record does not hold was queued before
      every recorded one, by an earlier QR session. */
  predicate SessionInv(m: Machine) {
    && PendingAwaited(m.data)
    && (forall j :: j in m.live ==> j.id < m.nextId)
    && (forall j :: j in m.data.qrJobs ==> j.id < m.nextId)
    && (forall j :: j in m.live ==> j in m.data.qrJobs || Earlier(j, m.data.qrJobs))
  }

  lemma InitialInv()
    ensures Inv(Initial) && SessionInv(Initial)
  {
  }

  /** What every handler but a successful QR choice does to the machine:
      the queue follows its effects (having lost the job that came due, if
      one did), it keeps the queue in step with the record, the handles are
      kept or dropped, no fresh id is used, and a pending order stays
      awaited. */
  predicate QuietStep(m: Machine, r: Reaction) {
    && r.next.live <= (m.live - Unscheduled(r.effects)) + Scheduled(r.effects)
    && r.next.nextId == m.nextId
    && TracksJobs(m.data, r.next.data, r.effects)
    && (r.next.data.qrJobs == m.data.qrJobs || r.next.data.qrJobs == [])
    && (PendingAwaited(m.data) ==> PendingAwaited(r.next.data))
  }

  lemma QuietKeepsInv(m: Machine, r: Reaction)
    requires Inv(m) && QuietStep(m, r)
    ensures Inv(r.next)
  {
  }

  lemma QuietKeepsSessionInv(m: Machine, r: Reaction)
    requires SessionInv(m) && QuietStep(m, r)
    ensures SessionInv(r.next)
  {
  }

  lemma TurnQuiet(m: Machine, t: Turn)
    requires PendingAwaited(m.data) ==> PendingAwaited(t.data)
    requires TracksJobs(m.data, t.data, t.effects) && (t.data.qrJobs == m.data.qrJobs || t.data.qrJobs == [])
    ensures QuietStep(m, ByTurn(m, t))
  {
  }

  lemma OutcomeQuiet(m: Machine, o: Outcome)
    requires PendingAwaited(m.data) ==> PendingAwaited(o.data)
    requires TracksJobs(m.data, o.data, o.effects) && (o.data.qrJobs == m.data.qrJobs || o.data.qrJobs == [])
    ensures QuietStep(m, ByOutcome(m, o))
  {
  }

  /** A plain handler that leaves the QR session alone keeps the queue in
      step and a pending order awaited. */
  lemma PlainKeeps(m: Machine, d: UserData, effects: seq<Effect>)
    requires Plain(effects) && SameQr(m.data, d)
    ensures PendingAwaited(m.data) ==> PendingAwaited(d)
    ensures TracksJobs(m.data, d, effects)
  {
    PlainQuiet(effects);
    NoJobsTracks(m.data, d, effects);
  }

  /** The conversation steps talk only to the user and leave the QR
      session alone. */
  lemma NameStepPlain(ctx: Ctx, d: UserData, st: Store, text: string)
    ensures Plain(AskNameStep(ctx, d, st, text).effects) && SameQr(d, AskNameStep(ctx, d, st, text).data)
  {
  }

  lemma PhoneStepPlain(d: UserData, st: Store, text: string)
    ensures Plain(AskPhoneStep(d, st, text).effects) && SameQr(d, AskPhoneStep(d, st, text).data)
  {
  }

  lemma AddressStepPlain(d: UserData, st: Store, text: string)
    ensures Plain(AskAddressStep(d, st, text).effects) && SameQr(d, AskAddressStep(d, st, text).data)
  {
  }

  lemma CommentStepPlain(ctx: Ctx, cfg: Settings, d: UserData, st: Store, text: string)
    ensures Plain(AskCommentStep(ctx, cfg, d, st, text).effects) && SameQr(d, AskCommentStep(ctx, cfg, d, st, text).data)
  {
  }

  lemma StartQuiet(m: Machine)
    ensures QuietStep(m, Start(m))
  {
    NoJobsSets(Start(m).effects);
  }

  lemma OnTextQuiet(cfg: Settings, cat: Catalog, m: Machine, ctx: Ctx, text: string)
    ensures QuietStep(m, OnText(cfg, cat, m, ctx, text))
  {
    match m.phase
    case AskName =>
      var t := AskNameStep(ctx, m.data, m.store, text);
      NameStepPlain(ctx, m.data, m.store, text);
      PlainKeeps(m, t.data, t.effects);
      TurnQuiet(m, t);
    case AskPhone =>
      var t := AskPhoneStep(m.data, m.store, text);
      PhoneStepPlain(m.data, m.store, text);
      PlainKeeps(m, t.data, t.effects);
      TurnQuiet(m, t);
    case AskAddress =>
      var t := AskAddressStep(m.data, m.store, text);
      AddressStepPlain(m.data, m.store, text);
      PlainKeeps(m, t.data, t.effects);
      TurnQuiet(m, t);
    case AskComment =>
      var t := AskCommentStep(ctx, cfg, m.data, m.store, text);
      CommentStepPlain(ctx, cfg, m.data, m.store, text);
      PlainKeeps(m, t.data, t.effects);
      TurnQuiet(m, t);
    case AskPayment =>
      if RegexLine(text, CancelText) {
        var t := CancelCheckout(m.data, m.store);
        PlainKeeps(m, t.data, t.effects);
        TurnQuiet(m, t);
      } else {
        var o := TextHandler(ctx, cat, m.data, m.store, text);
        PlainKeeps(m, o.data, o.effects);
        OutcomeQuiet(m, o);
      }
    case Idle =>
      var o := TextHandler(ctx, cat, m.data, m.store, text);
      PlainKeeps(m, o.data, o.effects);
      OutcomeQuiet(m, o);
  }

  lemma InlineQuiet(m: Machine, ctx: Ctx, cat: Catalog, data: string)
    ensures QuietStep(m, ByOutcome(m, InlineHandler(ctx, cat, m.data, m.store, data)))
  {
    var o := InlineHandler(ctx, cat, m.data, m.store, data);
    if data == "qr_confirm" || data == "qr_repeat" || data == "qr_cancel" {
      var e := if data == "qr_confirm" then ConfirmPressed(ctx)
        else if data == "qr_repeat" then RepeatPressed(ctx) else CancelPressed;
      assert o == QrStep(m.data, m.store, e);
      QrStepTracks(m.data, m.store, e);
      QrStepKeepsOrDropsJobs(m.data, m.store, e);
      if PendingAwaited(m.data) {
        QrStepKeepsPendingAwaited(m.data, m.store, e);
      }
    } else {
      PlainKeeps(m, o.data, o.effects);
    }
    OutcomeQuiet(m, o);
  }

  lemma CheckoutQuiet(sched: Scheduling, cfg: Settings, cat: Catalog, m: Machine, ctx: Ctx, data: string)
    requires m.phase == Idle && RegexLine(data, "checkout")
    ensures QuietStep(m, OnButton(sched, cfg, cat, m, ctx, data))
  {
    var t := StartCheckout(m.data, m.store);
    PlainKeeps(m, t.data, t.effects);
    TurnQuiet(m, t);
  }

  lemma OtherButtonQuiet(sched: Scheduling, cfg: Settings, cat: Catalog, m: Machine, ctx: Ctx, data: string)
    requires !(m.phase == Idle && RegexLine(data, "checkout")) && !(m.phase == AskPayment && PayPattern(data))
    ensures QuietStep(m, OnButton(sched, cfg, cat, m, ctx, data))
  {
    InlineQuiet(m, ctx, cat, data);
  }

  lemma OnJobQuiet(m: Machine, job: Job)
    ensures QuietStep(m, OnJob(m, job))
  {
    if job in m.live {
      var m1 := m.(live := m.live - {job});
      match job.kind
      case Reminder => ReminderQuiet(m1);
      case Timeout => TimeoutQuiet(m1);
    }
  }

  lemma ReminderQuiet(m: Machine)
    ensures QuietStep(m, ByOutcome(m, ReminderJob(m.data, m.store)))
  {
    NoJobsTracks(m.data, m.data, ReminderJob(m.data, m.store).effects);
    OutcomeQuiet(m, ReminderJob(m.data, m.store));
  }

  lemma TimeoutQuiet(m: Machine)
    ensures QuietStep(m, ByOutcome(m, TimeoutJob(m.data, m.store)))
  {
    TimeoutTracks(m.data, m.store);
    OutcomeQuiet(m, TimeoutJob(m.data, m.store));
  }

  /** `ask_payment` with the corrected scheduling keeps `Inv`, whatever the
      method, with the two job ids the router hands out. */
  lemma CorrectedPaymentKeeps(cfg: Settings, m: Machine, ctx: Ctx, pay: PayMethod)
    requires Inv(m)
    ensures Inv(Pay(Corrected, cfg, m, ctx, pay).next)
  {
    var t := AskPaymentStep(ctx, cfg, Corrected, m.data, m.store, pay, (m.nextId, m.nextId + 1));
    AskPaymentTracks(ctx, cfg, Corrected, m.data, m.store, pay, (m.nextId, m.nextId + 1));
    assert TracksJobs(m.data, t.data, t.effects);
    TrackedLive(m.live, m.data, t.data, t.effects);
  }

  /** A payment button that starts no QR session leaves the jobs and
      their record alone, and keeps a pending order awaited. */
  lemma NoSessionPay(sched: Scheduling, cfg: Settings, m: Machine, ctx: Ctx, pay: PayMethod)
    requires pay != Qr || !Summary.AllPriced(GetCart(m.store, ctx.user))
    ensures var r := Pay(sched, cfg, m, ctx, pay);
      && r.next.nextId == m.nextId + 2 && r.next.live == ApplyJobs(m.live, r.effects)
      && r.next.data.qrJobs == m.data.qrJobs && Scheduled(r.effects) == {} && Unscheduled(r.effects) == {}
      && (PendingAwaited(m.data) ==> PendingAwaited(r.next.data))
  {
    AskPaymentNoSession(ctx, cfg, sched, m.data, m.store, pay, (m.nextId, m.nextId + 1));
  }

  /** `ask_payment` as the code has it keeps `SessionInv`: the jobs of a
      new QR session get the two fresh ids, so every job left on the queue
      from before is older than them. */
  lemma PaymentKeepsSessionInv(cfg: Settings, m: Machine, ctx: Ctx, pay: PayMethod)
    requires SessionInv(m)
    ensures SessionInv(Pay(AsWritten, cfg, m, ctx, pay).next)
  {
    var r := Pay(AsWritten, cfg, m, ctx, pay);
    if pay == Qr && Summary.AllPriced(GetCart(m.store, ctx.user)) {
      QrPay(AsWritten, cfg, m, ctx);
      FreshIdsKeepSessionInv(m, r, true);
    } else {
      NoSessionPay(AsWritten, cfg, m, ctx, pay);
      FreshIdsKeepSessionInv(m, r, false);
    }
  }

  /** A step that uses up two ids and either leaves the jobs alone or starts
      a QR session on the two fresh ids keeps `SessionInv`. */
  lemma FreshIdsKeepSessionInv(m: Machine, r: Reaction, starts: bool)
    requires SessionInv(m) && PendingAwaited(r.next.data)
    requires r.next.nextId == m.nextId + 2 && r.next.live == ApplyJobs(m.live, r.effects)
    requires !starts ==> r.next.data.qrJobs == m.data.qrJobs && Scheduled(r.effects) == {} && Unscheduled(r.effects) == {}
    requires starts ==>
      && r.next.data.qrJobs == QrJobs((m.nextId, m.nextId + 1))
      && Scheduled(r.effects) == JobSet(QrJobs((m.nextId, m.nextId + 1)))
    ensures SessionInv(r.next)
  {
    if starts {
      forall j | j in r.next.live
        ensures j.id < m.nextId + 2 && (j in r.next.data.qrJobs || Earlier(j, r.next.data.qrJobs))
      {
        if j !in JobSet(r.next.data.qrJobs) {
          assert j in m.live;
        }
      }
    }
  }

  lemma CorrectedButtonKeeps(cfg: Settings, cat: Catalog, m: Machine, ctx: Ctx, data: string)
    requires Inv(m)
    ensures Inv(OnButton(Corrected, cfg, cat, m, ctx, data).next)
  {
    if m.phase == Idle && RegexLine(data, "checkout") {
      CheckoutQuiet(Corrected, cfg, cat, m, ctx, data);
      QuietKeepsInv(m, OnButton(Corrected, cfg, cat, m, ctx, data));
    } else if m.phase == AskPayment && PayPattern(data) {
      CorrectedPaymentKeeps(cfg, m, ctx, MethodOf(data));
    } else {
      OtherButtonQuiet(Corrected, cfg, cat, m, ctx, data);
      QuietKeepsInv(m, OnButton(Corrected, cfg, cat, m, ctx, data));
    }
  }

  lemma ButtonKeepsSessionInv(cfg: Settings, cat: Catalog, m: Machine, ctx: Ctx, data: string)
    requires SessionInv(m)
    ensures SessionInv(OnButton(AsWritten, cfg, cat, m, ctx, data).next)
  {
    if m.phase == Idle && RegexLine(data, "checkout") {
      CheckoutQuiet(AsWritten, cfg, cat, m, ctx, data);
      QuietKeepsSessionInv(m, OnButton(AsWritten, cfg, cat, m, ctx, data));
    } else if m.phase == AskPayment && PayPattern(data) {
      PaymentKeepsSessionInv(cfg, m, ctx, MethodOf(data));
    } else {
      OtherButtonQuiet(AsWritten, cfg, cat, m, ctx, data);
      QuietKeepsSessionInv(m, OnButton(AsWritten, cfg, cat, m, ctx, data));
    }
  }

  /** As the code has it, every update keeps `SessionInv`. */
  lemma RouteKeepsSessionInv(cfg: Settings, cat: Catalog, m: Machine, u: Update)
    requires SessionInv(m)
    ensures SessionInv(Route(cfg, cat, m, u).next)
  {
    match u
    case StartCommand =>
      StartQuiet(m);
      QuietKeepsSessionInv(m, Start(m));
    case Text(ctx, text) =>
      OnTextQuiet(cfg, cat, m, ctx, text);
      QuietKeepsSessionInv(m, OnText(cfg, cat, m, ctx, text));
    case Button(ctx, data) => ButtonKeepsSessionInv(cfg, cat, m, ctx, data);
    case JobFires(job) =>
      OnJobQuiet(m, job);
      QuietKeepsSessionInv(m, OnJob(m, job));
  }

  /** With the corrected scheduling every update keeps `Inv`. */
  lemma CorrectedRouteKeepsInv(cfg: Settings, cat: Catalog, m: Machine, u: Update)
    requires Inv(m)
    ensures Inv(RouteCorrected(cfg, cat, m, u).next)
  {
    match u
    case StartCommand =>
      StartQuiet(m);
      QuietKeepsInv(m, Start(m));
    case Text(ctx, text) =>
      OnTextQuiet(cfg, cat, m, ctx, text);
      QuietKeepsInv(m, OnText(cfg, cat, m, ctx, text));
    case Button(ctx, data) => CorrectedButtonKeeps(cfg, cat, m, ctx, data);
    case JobFires(job) =>
      OnJobQuiet(m, job);
      QuietKeepsInv(m, OnJob(m, job));
  }

  /** A run of updates; the effects are concatenated in order. */
  function Run(cfg: Settings, cat: Catalog, m: Machine, us: seq<Update>): Reaction
    decreases |us|
  {
    if |us| == 0 then Reaction(m, [])
    else
      var r := Route(cfg, cat, m, us[0]);
      var rest := Run(cfg, cat, r.next, us[1..]);
      Reaction(rest.next, r.effects + rest.effects)
  }

  /** The same with the corrected scheduling. */
  function RunCorrected(cfg: Settings, cat: Catalog, m: Machine, us: seq<Update>): Reaction
    decreases |us|
  {
    if |us| == 0 then Reaction(m, [])
    else
      var r := RouteCorrected(cfg, cat, m, us[0]);
      var rest := RunCorrected(cfg, cat, r.next, us[1..]);
      Reaction(rest.next, r.effects + rest.effects)
  }

  /** As the code has it, whatever arrives, `SessionInv` holds after a run
      from any machine that satisfies it, the initial one included. */
  lemma {:induction false} RunKeepsSessionInv(cfg: Settings, cat: Catalog, m: Machine, us: seq<Update>)
    requires SessionInv(m)
    ensures SessionInv(Run(cfg, cat, m, us).next)
    decreases |us|
  {
    if |us| > 0 {
      RouteKeepsSessionInv(cfg, cat, m, us[0]);
      RunKeepsSessionInv(cfg, cat, Route(cfg, cat, m, us[0]).next, us[1..]);
    }
  }

  /** With the corrected scheduling, whatever arrives, `Inv` holds. */
  lemma {:induction false} CorrectedRunKeepsInv(cfg: Settings, cat: Catalog, m: Machine, us: seq<Update>)
    requires Inv(m)
    ensures Inv(RunCorrected(cfg, cat, m, us).next)
    decreases |us|
  {
    if |us| > 0 {
      CorrectedRouteKeepsInv(cfg, cat, m, us[0]);
      CorrectedRunKeepsInv(cfg, cat, RouteCorrected(cfg, cat, m, us[0]).next, us[1..]);
    }
  }

  /** Two updates in a row, as a run. */
  lemma RunTwo(cfg: Settings, cat: Catalog, m: Machine, a: Update, b: Update)
    ensures var r1 := Route(cfg, cat, m, a);
      var r2 := Route(cfg, cat, r1.next, b);
      Run(cfg, cat, m, [a, b]) == Reaction(r2.next, r1.effects + r2.effects)
  {
    var us := [a, b];
    var r1 := Route(cfg, cat, m, a);
    var r2 := Route(cfg, cat, r1.next, b);
    assert us[1..] == [b] && [b][1..] == [];
    assert Run(cfg, cat, r2.next, []) == Reaction(r2.next, []);
    assert Run(cfg, cat, r1.next, [b]) == Reaction(r2.next, r2.effects + []);
    assert r2.effects + [] == r2.effects;
  }

  lemma RunCorrectedTwo(cfg: Settings, cat: Catalog, m: Machine, a: Update, b: Update)
    ensures var r1 := RouteCorrected(cfg, cat, m, a);
      var r2 := RouteCorrected(cfg, cat, r1.next, b);
      RunCorrected(cfg, cat, m, [a, b]) == Reaction(r2.next, r1.effects + r2.effects)
  {
    var us := [a, b];
    var r1 := RouteCorrected(cfg, cat, m, a);
    var r2 := RouteCorrected(cfg, cat, r1.next, b);
    assert us[1..] == [b] && [b][1..] == [];
    assert RunCorrected(cfg, cat, r2.next, []) == Reaction(r2.next, []);
    assert RunCorrected(cfg, cat, r1.next, [b]) == Reaction(r2.next, r2.effects + []);
    assert r2.effects + [] == r2.effects;
  }

  /** The "pay:qr" button in ASK_PAYMENT with a priced cart: a session
      starts on the two fresh ids, and the queue gains exactly its two jobs
      and loses nothing as written, or every job recorded before when
      corrected. */
  lemma QrChoice(sched: Scheduling, cfg: Settings, cat: Catalog, m: Machine, ctx: Ctx)
    requires m.phase == AskPayment && Summary.AllPriced(GetCart(m.store, ctx.user))
    ensures var r := OnButton(sched, cfg, cat, m, ctx, "pay:qr");
      && r.next.data.awaiting && r.next.data.pending.Some?
      && r.next.data.qrJobs == QrJobs((m.nextId, m.nextId + 1))
      && r.next.live == ApplyJobs(m.live, r.effects)
      && Scheduled(r.effects) == JobSet(QrJobs((m.nextId, m.nextId + 1)))
      && (sched == AsWritten ==> Unscheduled(r.effects) == {})
      && (sched == Corrected ==> Unscheduled(r.effects) == JobSet(m.data.qrJobs))
  {
    assert PayPattern("pay:qr") && MethodOf("pay:qr") == Qr;
    QrPay(sched, cfg, m, ctx);
  }

  lemma QrPay(sched: Scheduling, cfg: Settings, m: Machine, ctx: Ctx)
    requires Summary.AllPriced(GetCart(m.store, ctx.user))
    ensures var r := Pay(sched, cfg, m, ctx, Qr);
      && r.next.nextId == m.nextId + 2
      && r.next.data.awaiting && r.next.data.pending.Some?
      && r.next.data.qrJobs == QrJobs((m.nextId, m.nextId + 1))
      && r.next.live == ApplyJobs(m.live, r.effects)
      && Scheduled(r.effects) == JobSet(QrJobs((m.nextId, m.nextId + 1)))
      && (sched == AsWritten ==> Unscheduled(r.effects) == {})
      && (sched == Corrected ==> Unscheduled(r.effects) == JobSet(m.data.qrJobs))
  {
    AskPaymentQr(ctx, cfg, sched, m.data, m.store, (m.nextId, m.nextId + 1));
  }

  /** A second QR choice while the first session waits: a new session
      starts on the fresh ids, and the first session's timeout stays on the
      queue with no handle on it, so `Inv` no longer holds. */
  lemma SecondQrChoice(cfg: Settings, cat: Catalog, m: Machine, ctx: Ctx, k: nat)
    requires m.phase == AskPayment && k < m.nextId && Job(k, Timeout) in m.live
    requires Summary.AllPriced(GetCart(m.store, ctx.user))
    ensures var r := Route(cfg, cat, m, Button(ctx, "pay:qr"));
      && r.next.data.awaiting && r.next.data.pending.Some?
      && r.next.data.qrJobs == QrJobs((m.nextId, m.nextId + 1))
      && Job(k, Timeout) in r.next.live && !Inv(r.next)
  {
    QrChoice(AsWritten, cfg, cat, m, ctx);
    assert Job(k, Timeout) !in JobSet(QrJobs((m.nextId, m.nextId + 1)));
  }

  /** The same choice with the corrected scheduling takes the first
      session's jobs off the queue. */
  lemma SecondQrChoiceCorrected(cfg: Settings, cat: Catalog, m: Machine, ctx: Ctx, k: nat)
    requires m.phase == AskPayment && k < m.nextId && Job(k, Timeout) in m.data.qrJobs
    requires Summary.AllPriced(GetCart(m.store, ctx.user))
    ensures var r := RouteCorrected(cfg, cat, m, Button(ctx, "pay:qr"));
      && r.next.data.awaiting && r.next.data.pending.Some?
      && Job(k, Timeout) !in r.next.live
  {
    QrChoice(Corrected, cfg, cat, m, ctx);
    assert Job(k, Timeout) in JobSet(m.data.qrJobs);
    assert Job(k, Timeout) !in JobSet(QrJobs((m.nextId, m.nextId + 1)));
  }

  /** A timeout on the queue that comes due while a QR session waits ends
      that session, whichever session scheduled it: the order is dropped
      and the session's own jobs are taken off the queue. */
  lemma TimeoutEndsSession(cfg: Settings, cat: Catalog, m: Machine, job: Job)
    requires job.kind == Timeout && job in m.live && m.data.awaiting
    ensures var r := Route(cfg, cat, m, JobFires(job));
      && !r.next.data.awaiting && r.next.data.pending.None? && r.next.data.qrJobs == []
      && forall j :: j in m.data.qrJobs ==> Unschedule(j) in r.effects
  {
  }

  /** The finding on the whole bot. A second QR choice while the first
      session waits leaves the first session's timeout on the queue with no
      handle on it; when that timeout comes due it ends the second session:
      its order is dropped and its own timeout taken off the queue. */
  lemma StaleTimeoutInRun(cfg: Settings, cat: Catalog, m: Machine, ctx: Ctx, k: nat)
    requires m.phase == AskPayment && m.data.awaiting && k < m.nextId
    requires Job(k, Timeout) in m.live && Job(k, Timeout) in m.data.qrJobs
    requires Summary.AllPriced(GetCart(m.store, ctx.user))
    ensures var r1 := Route(cfg, cat, m, Button(ctx, "pay:qr"));
      && r1.next.data.awaiting && r1.next.data.pending.Some?
      && Job(k, Timeout) in r1.next.live && !Inv(r1.next)
    ensures var r := Run(cfg, cat, m, [Button(ctx, "pay:qr"), JobFires(Job(k, Timeout))]);
      !r.next.data.awaiting && r.next.data.pending.None? && r.next.data.qrJobs == []
    ensures Unschedule(Job(m.nextId + 1, Timeout)) in Run(cfg, cat, m, [Button(ctx, "pay:qr"), JobFires(Job(k, Timeout))]).effects
  {
    var r1 := Route(cfg, cat, m, Button(ctx, "pay:qr"));
    SecondQrChoice(cfg, cat, m, ctx, k);
    TimeoutEndsSession(cfg, cat, r1.next, Job(k, Timeout));
    RunTwo(cfg, cat, m, Button(ctx, "pay:qr"), JobFires(Job(k, Timeout)));
    assert Job(m.nextId + 1, Timeout) in r1.next.data.qrJobs by {
      assert r1.next.data.qrJobs[1] == Job(m.nextId + 1, Timeout);
    }
  }

  /** The same two updates with the corrected scheduling: the first
      session's timeout comes off the queue with the QR choice, so when it
      would have come due nothing happens and the second session keeps
      waiting. */
  lemma NoStaleTimeoutInCorrectedRun(cfg: Settings, cat: Catalog, m: Machine, ctx: Ctx, k: nat)
    requires m.phase == AskPayment && k < m.nextId && Job(k, Timeout) in m.data.qrJobs
    requires Summary.AllPriced(GetCart(m.store, ctx.user))
    ensures Job(k, Timeout) !in RouteCorrected(cfg, cat, m, Button(ctx, "pay:qr")).next.live
    ensures var r := RunCorrected(cfg, cat, m, [Button(ctx, "pay:qr"), JobFires(Job(k, Timeout))]);
      r == RouteCorrected(cfg, cat, m, Button(ctx, "pay:qr"))
    ensures var r := RunCorrected(cfg, cat, m, [Button(ctx, "pay:qr"), JobFires(Job(k, Timeout))]);
      r.next.data.awaiting && r.next.data.pending.Some?
  {
    SecondQrChoiceCorrected(cfg, cat, m, ctx, k);
    RunCorrectedTwo(cfg, cat, m, Button(ctx, "pay:qr"), JobFires(Job(k, Timeout)));
  }

  /** "Cancel" typed inside the conversation always ends it; outside it,
      the text ends a checkout exactly when the checkout flag is set. */
  lemma CancelRouting(cfg: Settings, cat: Catalog, m: Machine, ctx: Ctx)
    ensures var r := Route(cfg, cat, m, Text(ctx, CancelText));
      && r.next.phase == Idle && !r.next.data.inCheckout && r.next.store == m.store
      && (m.phase != Idle ==> ToUser(CheckoutCancelled) in r.effects)
      && (m.phase == Idle ==> (ToUser(CheckoutCancelled) in r.effects <==> m.data.inCheckout))
  {
    var r := Route(cfg, cat, m, Text(ctx, CancelText));
    CancelRoutes(cfg, cat, m, ctx);
    if m.phase == Idle {
      var o := TextHandler(ctx, cat, m.data, m.store, CancelText);
      assert r == ByOutcome(m, o);
    } else {
      var t := CancelCheckout(m.data, m.store);
      assert r == ByTurn(m, t);
    }
  }

  /** The cancel text reaches `cancel_checkout_msg` in every conversation
      state and the generic text handler outside the conversation. */
  lemma CancelRoutes(cfg: Settings, cat: Catalog, m: Machine, ctx: Ctx)
    ensures m.phase != Idle ==> Route(cfg, cat, m, Text(ctx, CancelText)) == ByTurn(m, CancelCheckout(m.data, m.store))
    ensures m.phase == Idle ==>
      Route(cfg, cat, m, Text(ctx, CancelText)) == ByOutcome(m, TextHandler(ctx, cat, m.data, m.store, CancelText))
  {
    StripUnchanged(CancelText);
  }

  /** The conversation leaves ASK_PAYMENT only through a payment button or
      the cancel text; a payment button leaves it exactly when the cart has
      a total and the method is allowed at that hour. */
  lemma PaymentPhaseExits(cfg: Settings, cat: Catalog, m: Machine, u: Update)
    requires m.phase == AskPayment
    ensures var r := Route(cfg, cat, m, u);
      r.next.phase != AskPayment ==> (u.Button? && PayPattern(u.data)) || (u.Text? && RegexLine(u.text, CancelText))
    ensures u.Text? && RegexLine(u.text, CancelText) ==> Route(cfg, cat, m, u).next.phase == Idle
    ensures u.Button? && PayPattern(u.data) ==>
      (Route(cfg, cat, m, u).next.phase == Idle <==>
        && Summary.Summarize(GetCart(m.store, u.ctx.user)).Some?
        && !(QrOnly(u.ctx.hour, cfg.earlyHour, cfg.lateHour) && MethodOf(u.data) != Qr)
        && !(MethodOf(u.data) == Online && u.ctx.paymentUrl.None?))
  {
  }

  /** Which updates reach the operator: a cash or online payment button in
      ASK_PAYMENT, or the QR confirmation with an order pending; and never
      more than one message per update. */
  lemma OperatorOnlyOnOrder(cfg: Settings, cat: Catalog, m: Machine, u: Update)
    ensures OperatorCount(Route(cfg, cat, m, u).effects) <= 1
    ensures OperatorCount(Route(cfg, cat, m, u).effects) > 0 ==>
      || (m.phase == AskPayment && u.Button? && PayPattern(u.data) && MethodOf(u.data) != Qr)
      || (u.Button? && u.data == "qr_confirm" && m.data.pending.Some?)
  {
    var r := Route(cfg, cat, m, u);
    match u
    case StartCommand =>
      PlainQuiet([ClearChat, ToUser(Welcome)]);
    case Text(ctx, text) =>
      TextQuiet(cfg, cat, m, ctx, text);
    case Button(ctx, data) =>
      if m.phase == Idle && RegexLine(data, "checkout") {
        PlainQuiet(StartCheckout(m.data, m.store).effects);
      } else if m.phase == AskPayment && PayPattern(data) {
        PayOperator(cfg, m, ctx, MethodOf(data));
      } else if data !in {"qr_confirm", "qr_repeat", "qr_cancel"} {
        PlainQuiet(InlineHandler(ctx, cat, m.data, m.store, data).effects);
      }
    case JobFires(job) =>
  }

  /** A payment button tells the operator at most once, and never for QR. */
  lemma PayOperator(cfg: Settings, m: Machine, ctx: Ctx, pay: PayMethod)
    ensures OperatorCount(Pay(AsWritten, cfg, m, ctx, pay).effects) <= 1
    ensures OperatorCount(Pay(AsWritten, cfg, m, ctx, pay).effects) > 0 ==> pay != Qr
  {
    if QrOnly(ctx.hour, cfg.earlyHour, cfg.lateHour) && pay != Qr {
      OperatorCountSingle(ToUser(QrOnlyWarning));
    }
  }

  lemma TextQuiet(cfg: Settings, cat: Catalog, m: Machine, ctx: Ctx, text: string)
    ensures OperatorCount(OnText(cfg, cat, m, ctx, text).effects) == 0
  {
    var es := OnText(cfg, cat, m, ctx, text).effects;
    match m.phase {
      case AskName => NameStepPlain(ctx, m.data, m.store, text);
      case AskPhone => PhoneStepPlain(m.data, m.store, text);
      case AskAddress => AddressStepPlain(m.data, m.store, text);
      case AskComment => CommentStepPlain(ctx, cfg, m.data, m.store, text);
      case AskPayment =>
      case Idle =>
    }
    PlainQuiet(es);
  }

  /** A whole cash checkout, from the cart's "checkout" button to "pay:
      cash": each step before the last tells the operator nothing; the last
      tells the operator once, with the typed name, phone, address and
      comment and the cart's total, archives the cart as the last order,
      empties it and drops the checkout flag. */
  lemma CashCheckout(cfg: Settings, cat: Catalog, m: Machine, ctx: Ctx, name: string, phone: string,
                     address: string, comment: string)
    requires m.phase == Idle && name != CancelText && address != CancelText && PhoneValid(phone)
    requires Strip(comment) == comment && comment != CancelText && comment != SkipText
    requires !QrOnly(ctx.hour, cfg.earlyHour, cfg.lateHour) && Summary.AllPriced(GetCart(m.store, ctx.user))
    ensures var r1 := Route(cfg, cat, m, Button(ctx, "checkout"));
      var r2 := Route(cfg, cat, r1.next, Text(ctx, name));
      var r3 := Route(cfg, cat, r2.next, Text(ctx, phone));
      var r4 := Route(cfg, cat, r3.next, Text(ctx, address));
      var r5 := Route(cfg, cat, r4.next, Text(ctx, comment));
      var r6 := Route(cfg, cat, r5.next, Button(ctx, "pay:cash"));
      var cart := GetCart(m.store, ctx.user);
      var order := Summary.OrderText(m.data.orderId.GetOr(ctx.clock), name, phone, address, comment,
        Summary.Summarize(cart).value.lines, Summary.SumPrices(cart));
      && OperatorCount(r1.effects + r2.effects + r3.effects + r4.effects + r5.effects) == 0
      && OperatorCount(r6.effects) == 1
      && ToOperator(CashOrder(order, ctx.stamp)) in r6.effects
      && r6.next.phase == Idle && !r6.next.data.inCheckout
      && GetLastOrder(r6.next.store, ctx.user) == cart && GetCart(r6.next.store, ctx.user) == []
  {
    var r1 := Route(cfg, cat, m, Button(ctx, "checkout"));
    CheckoutRoute(cfg, cat, m, ctx);
    var r2 := Route(cfg, cat, r1.next, Text(ctx, name));
    NameRoute(cfg, cat, r1.next, ctx, name);
    var r3 := Route(cfg, cat, r2.next, Text(ctx, phone));
    PhoneRoute(cfg, cat, r2.next, ctx, phone);
    var r4 := Route(cfg, cat, r3.next, Text(ctx, address));
    AddressRoute(cfg, cat, r3.next, ctx, address);
    var r5 := Route(cfg, cat, r4.next, Text(ctx, comment));
    CommentRoute(cfg, cat, r4.next, ctx, comment);
    CashPayRoute(cfg, cat, r5.next, ctx);
    OperatorCountAppend(r1.effects, r2.effects);
    OperatorCountAppend(r1.effects + r2.effects, r3.effects);
    OperatorCountAppend(r1.effects + r2.effects + r3.effects, r4.effects);
    OperatorCountAppend(r1.effects + r2.effects + r3.effects + r4.effects, r5.effects);
  }

  /** The "checkout" button outside the conversation opens it. */
  lemma CheckoutRoute(cfg: Settings, cat: Catalog, m: Machine, ctx: Ctx)
    requires m.phase == Idle
    ensures var r := Route(cfg, cat, m, Button(ctx, "checkout"));
      && r.next.phase == AskName && r.next.store == m.store && r.next.data == m.data.(inCheckout := true)
      && OperatorCount(r.effects) == 0
  {
    PlainQuiet(StartCheckout(m.data, m.store).effects);
  }

  /** A name other than the cancel text is recorded, with the order id
      fixed on first use. */
  lemma NameRoute(cfg: Settings, cat: Catalog, m: Machine, ctx: Ctx, name: string)
    requires m.phase == AskName && name != CancelText
    ensures var r := Route(cfg, cat, m, Text(ctx, name));
      && r.next.phase == AskPhone && r.next.store == m.store
      && r.next.data == m.data.(name := Some(name), orderId := Some(m.data.orderId.GetOr(ctx.clock)))
      && OperatorCount(r.effects) == 0
  {
    TextQuiet(cfg, cat, m, ctx, name);
  }

  /** A valid phone is recorded as typed. */
  lemma PhoneRoute(cfg: Settings, cat: Catalog, m: Machine, ctx: Ctx, phone: string)
    requires m.phase == AskPhone && PhoneValid(phone)
    ensures var r := Route(cfg, cat, m, Text(ctx, phone));
      && r.next.phase == AskAddress && r.next.store == m.store && r.next.data == m.data.(phone := Some(phone))
      && OperatorCount(r.effects) == 0
  {
    StripUnchanged(phone);
    TextQuiet(cfg, cat, m, ctx, phone);
  }

  /** An address other than the cancel text is recorded. */
  lemma AddressRoute(cfg: Settings, cat: Catalog, m: Machine, ctx: Ctx, address: string)
    requires m.phase == AskAddress && address != CancelText
    ensures var r := Route(cfg, cat, m, Text(ctx, address));
      && r.next.phase == AskComment && r.next.store == m.store && r.next.data == m.data.(address := Some(address))
      && OperatorCount(r.effects) == 0
  {
    TextQuiet(cfg, cat, m, ctx, address);
  }

  /** A stripped comment other than the cancel and skip texts is recorded. */
  lemma CommentRoute(cfg: Settings, cat: Catalog, m: Machine, ctx: Ctx, comment: string)
    requires m.phase == AskComment && Strip(comment) == comment && comment != CancelText && comment != SkipText
    ensures var r := Route(cfg, cat, m, Text(ctx, comment));
      && r.next.phase == AskPayment && r.next.store == m.store && r.next.data == m.data.(comment := Some(comment))
      && OperatorCount(r.effects) == 0
  {
    TextQuiet(cfg, cat, m, ctx, comment);
  }

  /** The "pay: cash" button in ASK_PAYMENT, outside the QR-only hours and
      with every dish priced: one cash order to the operator, composed from
      the record, and the cart becomes the last order. */
  lemma CashPayRoute(cfg: Settings, cat: Catalog, m: Machine, ctx: Ctx)
    requires m.phase == AskPayment && !QrOnly(ctx.hour, cfg.earlyHour, cfg.lateHour)
    requires Summary.AllPriced(GetCart(m.store, ctx.user))
    ensures var r := Route(cfg, cat, m, Button(ctx, "pay:cash"));
      var cart := GetCart(m.store, ctx.user);
      && OperatorCount(r.effects) == 1
      && ToOperator(CashOrder(Compose(ctx, m.data, Summary.Summarize(cart).value), ctx.stamp)) in r.effects
      && r.next.phase == Idle && !r.next.data.inCheckout
      && GetLastOrder(r.next.store, ctx.user) == cart && GetCart(r.next.store, ctx.user) == []
  {
    assert PayPattern("pay:cash") && MethodOf("pay:cash") == Cash;
  }

  /** A QR checkout and its confirmation: choosing QR tells the operator
      nothing and leaves the cart; the confirmation then tells the operator
      once, with the order composed when QR was chosen, and archives the
      cart. */
  lemma QrCheckoutConfirmed(cfg: Settings, cat: Catalog, m: Machine, ctx: Ctx, ctx2: Ctx)
    requires m.phase == AskPayment && Summary.AllPriced(GetCart(m.store, ctx.user)) && ctx2.user == ctx.user
    ensures var r1 := Route(cfg, cat, m, Button(ctx, "pay:qr"));
      var r2 := Route(cfg, cat, r1.next, Button(ctx2, "qr_confirm"));
      var order := Compose(ctx, m.data, Summary.Summarize(GetCart(m.store, ctx.user)).value);
      && OperatorCount(r1.effects) == 0 && r1.next.store == m.store && r1.next.phase == Idle
      && OperatorCount(r2.effects) == 1
      && r2.effects[0] == ToOperator(QrOrder(order, ctx2.stamp, Handle(ctx2.username), ctx.user))
      && GetLastOrder(r2.next.store, ctx.user) == GetCart(m.store, ctx.user)
      && GetCart(r2.next.store, ctx.user) == []
      && !r2.next.data.awaiting && r2.next.data.pending.None?
  {
    var r1 := Route(cfg, cat, m, Button(ctx, "pay:qr"));
    QrPayRoute(cfg, cat, m, ctx);
    ConfirmRoute(cfg, cat, r1.next, ctx2);
  }

  /** "pay:qr" in ASK_PAYMENT with a priced cart tells no one, keeps the
      store and closes the conversation with the composed order pending. */
  lemma QrPayRoute(cfg: Settings, cat: Catalog, m: Machine, ctx: Ctx)
    requires m.phase == AskPayment && Summary.AllPriced(GetCart(m.store, ctx.user))
    ensures var r := Route(cfg, cat, m, Button(ctx, "pay:qr"));
      && OperatorCount(r.effects) == 0 && r.next.store == m.store && r.next.phase == Idle
      && r.next.data.pending == Some(Compose(ctx, m.data, Summary.Summarize(GetCart(m.store, ctx.user)).value))
  {
    assert PayPattern("pay:qr") && MethodOf("pay:qr") == Qr;
  }

  /** "qr_confirm" with an order pending tells the operator once with that
      order, archives the cart and ends the QR session. */
  lemma ConfirmRoute(cfg: Settings, cat: Catalog, m: Machine, ctx: Ctx)
    requires m.data.pending.Some? && m.phase == Idle
    ensures var r := Route(cfg, cat, m, Button(ctx, "qr_confirm"));
      && OperatorCount(r.effects) == 1
      && r.effects[0] == ToOperator(QrOrder(m.data.pending.value, ctx.stamp, Handle(ctx.username), ctx.user))
      && r.next.store == Archive(m.store, ctx.user, GetCart(m.store, ctx.user))
      && !r.next.data.awaiting && r.next.data.pending.None?
  {
    assert !RegexLine("qr_confirm", "checkout");
    assert InlineHandler(ctx, cat, m.data, m.store, "qr_confirm") == QrStep(m.data, m.store, ConfirmPressed(ctx));
  }

  /** While a QR order is still awaited the conversation is closed and the
      checkout flag still set, so the cart's "checkout" button opens a new
      conversation over the waiting session, whose order and jobs remain. */
  lemma ReentryWhileAwaiting(cfg: Settings, cat: Catalog, m: Machine, ctx: Ctx)
    requires m.phase == Idle && m.data.awaiting
    ensures var r := Route(cfg, cat, m, Button(ctx, "checkout"));
      r.next.phase == AskName && SameQr(m.data, r.next.data) && r.next.live == m.live
  {
    NoJobsSets(StartCheckout(m.data, m.store).effects);
  }
}
