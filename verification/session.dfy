/** What the bot keeps per user (`context.user_data`) and what a handler
    does to the outside world. A handler is a pure function from the user's
    record and the cart store to a new record, a new store and a log of
    effects: messages to the user, messages to the operator chat, message
    deletions, and jobs put on or taken off the job queue. The clock, the
    payment provider and the ids Telegram assigns come in through `Ctx`. */
module Session {
  import opened Results
  import opened CartStore
  import opened Summary
  import opened CartView
  import opened Menu

  /** Where the checkout conversation stands; `Idle` is "no conversation"
      (also what `ConversationHandler.END` leads back to). */
  datatype Phase = Idle | AskName | AskPhone | AskAddress | AskComment | AskPayment

  datatype JobKind = Reminder | Timeout

  /** A handle on a job queued with `run_once`. */
  datatype Job = Job(id: nat, kind: JobKind)

  /** `context.user_data`, with an absent key as `None` (or `false`, or
      `[]`, matching what the code reads it as). */
  datatype UserData = UserData(
    browse: Browsing,
    inCheckout: bool,
    orderId: Option<string>,
    name: Option<string>,
    phone: Option<string>,
    address: Option<string>,
    comment: Option<string>,
    pending: Option<OrderText>,
    awaiting: bool,
    qrMessageId: Option<nat>,
    qrJobs: seq<Job>)

  const Fresh := UserData(Browsing(false, false), false, None, None, None, None, None, None, false, None, [])

  /** What the user is shown; the wording is not modelled, only which
      message it is and the data it carries. */
  datatype Notice =
    | Welcome | MainMenu | ContactsInfo | NothingToRepeat
    | CategoryMenu(rows: seq<seq<string>>)
    | DishShown(card: Card) | DishesTail
    | CartScreen(view: View) | AddedToCart
    | AskForName | AskForPhone | BadPhone | AskForAddress | AskForComment
    | PaymentChoice(qrOnly: bool) | QrOnlyWarning
    | OrderAccepted | PaymentLink(url: string)
    | QrShown(total: Option<int>) | NoActiveOrder | ConfirmThanks | QrCancelled
    | QrReminder | QrExpired
    | CheckoutCancelled

  /** The three order notifications of the operator chat. */
  datatype OperatorMessage =
    | CashOrder(order: OrderText, stamp: string)
    | OnlineOrder(order: OrderText, url: string, stamp: string)
    | QrOrder(order: OrderText, stamp: string, handle: string, user: UserId)

  datatype Effect =
    | ToUser(notice: Notice)
    | ToOperator(message: OperatorMessage)
    | DeleteMessage(messageId: nat)
    | ClearChat
    | Schedule(job: Job, delaySeconds: int)
    | Unschedule(job: Job)
    | RequestPayment(total: int, user: UserId)

  /** The environment of one update: who sent it, the Moscow hour, the two
      timestamps the handlers format (`%d.%m %H:%M` and `%y%m%d-%H%M%S`), the
      id Telegram gives the next message the bot sends, the payment link
      `create_payment` returns (`None` when it raises), and the sender's
      username ("" when none). */
  datatype Ctx = Ctx(user: UserId, hour: int, stamp: string, clock: string,
    messageId: nat, paymentUrl: Option<string>, username: string)

  /** A conversation handler's result: the next phase, the record, the
      store, the effects. */
  datatype Turn = Turn(phase: Phase, data: UserData, store: Store, effects: seq<Effect>)

  /** A handler outside the conversation: no phase. */
  datatype Outcome = Outcome(data: UserData, store: Store, effects: seq<Effect>)

  /** How many order notifications the operator chat receives. */
  function OperatorCount(effects: seq<Effect>): (n: nat)
    ensures n <= |effects|
  {
    if |effects| == 0 then 0
    else OperatorCount(effects[..|effects| - 1]) + (if effects[|effects| - 1].ToOperator? then 1 else 0)
  }

  lemma {:induction false} OperatorCountAppend(a: seq<Effect>, b: seq<Effect>)
    ensures OperatorCount(a + b) == OperatorCount(a) + OperatorCount(b)
    decreases |b|
  {
    if |b| > 0 {
      OperatorCountAppend(a, b[..|b| - 1]);
      assert (a + b)[..|a + b| - 1] == a + b[..|b| - 1];
    } else {
      assert a + b == a;
    }
  }

  lemma OperatorCountSingle(e: Effect)
    ensures OperatorCount([e]) == if e.ToOperator? then 1 else 0
  {
    assert [e][..0] == [];
  }

  /** `OperatorCount` is zero exactly when no effect goes to the operator. */
  lemma {:induction false} OperatorCountZero(effects: seq<Effect>)
    ensures OperatorCount(effects) == 0 <==> forall i :: 0 <= i < |effects| ==> !effects[i].ToOperator?
  {
    if |effects| > 0 {
      OperatorCountZero(effects[..|effects| - 1]);
      assert forall i :: 0 <= i < |effects| - 1 ==> effects[..|effects| - 1][i] == effects[i];
    }
  }

  /** The jobs an effect log puts on the queue. */
  function Scheduled(effects: seq<Effect>): set<Job> {
    if |effects| == 0 then {}
    else
      var last := effects[|effects| - 1];
      Scheduled(effects[..|effects| - 1]) + (if last.Schedule? then {last.job} else {})
  }

  /** The jobs an effect log takes off the queue. */
  function Unscheduled(effects: seq<Effect>): set<Job> {
    if |effects| == 0 then {}
    else
      var last := effects[|effects| - 1];
      Unscheduled(effects[..|effects| - 1]) + (if last.Unschedule? then {last.job} else {})
  }

  lemma {:induction false} JobSetsAppend(a: seq<Effect>, b: seq<Effect>)
    ensures Scheduled(a + b) == Scheduled(a) + Scheduled(b)
    ensures Unscheduled(a + b) == Unscheduled(a) + Unscheduled(b)
    decreases |b|
  {
    if |b| > 0 {
      JobSetsAppend(a, b[..|b| - 1]);
      assert (a + b)[..|a + b| - 1] == a + b[..|b| - 1];
    } else {
      assert a + b == a;
    }
  }

  /** Effects with no job in them leave the queue alone. */
  predicate NoJobs(effects: seq<Effect>) {
    forall i :: 0 <= i < |effects| ==> !effects[i].Schedule? && !effects[i].Unschedule?
  }

  lemma {:induction false} NoJobsSets(effects: seq<Effect>)
    requires NoJobs(effects)
    ensures Scheduled(effects) == {} && Unscheduled(effects) == {}
    ensures forall live :: ApplyJobs(live, effects) == live
  {
    if |effects| > 0 {
      var init := effects[..|effects| - 1];
      assert NoJobs(init) by {
        forall i | 0 <= i < |init| ensures !init[i].Schedule? && !init[i].Unschedule? {
          assert init[i] == effects[i];
        }
      }
      NoJobsSets(init);
    }
  }

  function JobSet(jobs: seq<Job>): set<Job> {
    set i | 0 <= i < |jobs| :: jobs[i]
  }

  /** The jobs live on the queue after a handler's effects are applied: at
      most the live ones not taken off plus the ones put on, and a live job
      no effect takes off is still there. */
  function ApplyJobs(live: set<Job>, effects: seq<Effect>): (r: set<Job>)
    ensures r <= (live - Unscheduled(effects)) + Scheduled(effects)
    ensures live - Unscheduled(effects) <= r
  {
    if |effects| == 0 then live
    else
      var before := ApplyJobs(live, effects[..|effects| - 1]);
      match effects[|effects| - 1]
      case Schedule(j, _) => before + {j}
      case Unschedule(j) => before - {j}
      case _ => before
  }

  /** A handler keeps the record's job handles in step with the queue: it
      only queues jobs it records, and it either keeps the handles or takes
      every recorded job off the queue. */
  predicate TracksJobs(d: UserData, d': UserData, effects: seq<Effect>) {
    && Scheduled(effects) <= JobSet(d'.qrJobs)
    && (d'.qrJobs == d.qrJobs || JobSet(d.qrJobs) <= Unscheduled(effects))
  }

  /** Under such a handler every live job stays a recorded one. */
  lemma TrackedLive(live: set<Job>, d: UserData, d': UserData, effects: seq<Effect>)
    requires live <= JobSet(d.qrJobs) && TracksJobs(d, d', effects)
    ensures ApplyJobs(live, effects) <= JobSet(d'.qrJobs)
  {
  }

  lemma NoJobsTracks(d: UserData, d': UserData, effects: seq<Effect>)
    requires NoJobs(effects) && d'.qrJobs == d.qrJobs
    ensures TracksJobs(d, d', effects)
  {
    NoJobsSets(effects);
  }
}
