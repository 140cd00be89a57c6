/** The local state transitions of the concierge front end (App.tsx): the
    bounded integration log, the voice and prompt chosen from the caller
    persona, the dispatcher for the three tool calls the hosted model may
    issue, the text-chat path and the order total.

    Everything the hosted model decides (which tools to call, with which
    arguments, and the reply text) arrives as a parameter, and so do the
    values the source draws from `Date` and `Math.random`. */
module Concierge {
  import opened Types
  import opened Text
  import Menu

  // ---------------------------------------------------------------------
  // Initial state (App.tsx:10-21)
  // ---------------------------------------------------------------------

  const GREETING: string := "Thanks for calling FEEmhaN FooDieS! This is your digital concierge. How can I delight you with an order, a reservation, or a question today?"
  const BOOT_LOG: string := "[System] FEEmhaN FooDieS AI Core (Pro Tier) Online. Listening..."

  /** The state the page starts in; `now` stands for the greeting's `new Date()`. */
  function InitialState(now: int): (s: AppState)
    ensures Valid(s)
    ensures s.order == [] && s.reservation.None? && !s.handoffRequested && !s.isThinking && !s.isCalling
    ensures |s.chatHistory| == 1 && s.chatHistory[0].role == Model
    ensures s.persona == CustomerPersona(Either, Young)
  {
    AppState(
      isCalling := false,
      order := [],
      reservation := None,
      chatHistory := [ChatMessage(Model, GREETING, now)],
      isThinking := false,
      handoffRequested := false,
      persona := CustomerPersona(Either, Young),
      logs := [BOOT_LOG])
  }

  // ---------------------------------------------------------------------
  // The integration log (App.tsx:38-40)
  // ---------------------------------------------------------------------

  /** The log never holds more than this many entries. */
  const MAX_LOGS: nat := 15

  /** The state invariant every transition keeps: the log is bounded. */
  predicate Valid(s: AppState)
  {
    |s.logs| <= MAX_LOGS
  }

  function Min(a: int, b: int): int
  {
    if a <= b then a else b
  }

  /** The text of one log line; `clock` stands for `new Date().toLocaleTimeString()`. */
  function LogLine(clock: string, msg: string): string
  {
    "[" + clock + "] " + msg
  }

  /** `addLog`: the new line goes in front and the list is cut to its first
      MAX_LOGS entries, so the oldest entries fall off the end. */
  function AddLog(logs: seq<string>, clock: string, msg: string): (r: seq<string>)
    ensures |r| == Min(|logs| + 1, MAX_LOGS) && |r| <= MAX_LOGS
    ensures r[0] == LogLine(clock, msg)
    ensures r[1..] == logs[..|r| - 1]
    ensures |logs| < MAX_LOGS ==> r[1..] == logs
  {
    ([LogLine(clock, msg)] + logs)[..Min(|logs| + 1, MAX_LOGS)]
  }

  /** Several `addLog` calls in a row, in the order given. */
  function AddLogs(logs: seq<string>, clock: string, msgs: seq<string>): seq<string>
  {
    if msgs == [] then logs
    else AddLog(AddLogs(logs, clock, msgs[..|msgs| - 1]), clock, msgs[|msgs| - 1])
  }

  /** After logging `msgs` in order, the list is bounded, the newest message
      is in front (the messages appear in reverse order), and behind them
      the old entries follow in their old order, cut to fit. */
  lemma {:induction false} AddLogsNewestFirst(logs: seq<string>, clock: string, msgs: seq<string>)
    requires |msgs| <= MAX_LOGS
    ensures var r := AddLogs(logs, clock, msgs);
      |r| == (if msgs == [] then |logs| else Min(|logs| + |msgs|, MAX_LOGS))
      && |msgs| <= |r|
      && (forall i :: 0 <= i < |msgs| ==> r[i] == LogLine(clock, msgs[|msgs| - 1 - i]))
      && r[|msgs|..] == logs[..|r| - |msgs|]
  {
    if msgs != [] {
      var front := msgs[..|msgs| - 1];
      AddLogsNewestFirst(logs, clock, front);
      var prev := AddLogs(logs, clock, front);
      var r := AddLog(prev, clock, msgs[|msgs| - 1]);
      assert r == AddLogs(logs, clock, msgs);
      forall i | 0 <= i < |msgs|
        ensures r[i] == LogLine(clock, msgs[|msgs| - 1 - i])
      {
        if i > 0 {
          assert r[i] == r[1..][i - 1] == prev[i - 1];
          assert front[|front| - 1 - (i - 1)] == msgs[|msgs| - 1 - i];
        }
      }
      calc {
        r[|msgs|..];
        r[1..][|front|..];
        prev[..|r| - 1][|front|..];
        prev[|front|..][..|r| - |msgs|];
        logs[..|prev| - |front|][..|r| - |msgs|];
        logs[..|r| - |msgs|];
      }
    }
  }

  // ---------------------------------------------------------------------
  // Persona: voice and system prompt (App.tsx:46-60)
  // ---------------------------------------------------------------------

  /** The prebuilt voices of the hosted live API that the persona selects from. */
  datatype Voice = Fenrir | Puck | Kore | Zephyr | Charon

  /** The name the live API expects for a voice. */
  function VoiceId(v: Voice): string
  {
    match v
    case Fenrir => "Fenrir"
    case Puck => "Puck"
    case Kore => "Kore"
    case Zephyr => "Zephyr"
    case Charon => "Charon"
  }

  /** `getVoiceName`: Old male and female callers get the deeper voices,
      every other age (Baby included) the lighter ones, and 'Either' always
      gets the neutral voice. */
  function VoiceName(p: CustomerPersona): (v: Voice)
    ensures v == Charon <==> p.gender.Either?
    ensures v in {Fenrir, Kore} <==> p.gender != Either && p.age == Old
    ensures v in {Fenrir, Puck} <==> p.gender == Male
    ensures v in {Kore, Zephyr} <==> p.gender == Female
  {
    if p.gender == Male then
      (if p.age == Old then Fenrir else Puck)
    else if p.gender == Female then
      (if p.age == Old then Kore else Zephyr)
    else
      Charon
  }

  /** The full table of `getVoiceName`; a Baby persona is voiced like a Young one. */
  lemma VoiceTable(g: Gender, a: AgeGroup)
    ensures VoiceName(CustomerPersona(Male, Old)) == Fenrir
    ensures VoiceName(CustomerPersona(Male, Young)) == Puck
    ensures VoiceName(CustomerPersona(Female, Old)) == Kore
    ensures VoiceName(CustomerPersona(Female, Young)) == Zephyr
    ensures VoiceName(CustomerPersona(Either, a)) == Charon
    ensures VoiceName(CustomerPersona(g, Baby)) == VoiceName(CustomerPersona(g, Young))
  {
  }

  function GenderName(g: Gender): string
  {
    match g
    case Male => "Male"
    case Female => "Female"
    case Either => "Either"
  }

  function AgeName(a: AgeGroup): string
  {
    match a
    case Young => "Young"
    case Old => "Old"
    case Baby => "Baby"
  }

  /** `${gender}, ${age}` */
  function PersonaText(p: CustomerPersona): string
  {
    GenderName(p.gender) + ", " + AgeName(p.age)
  }

  const PERSONA_PLACEHOLDER: string := "{{PERSONA}}"

  /** `getSystemInstruction`: the persona text replaces the first
      placeholder of the prompt template (whose wording is not modelled). */
  function SystemInstruction(template: string, p: CustomerPersona): string
  {
    ReplaceFirst(template, PERSONA_PLACEHOLDER, PersonaText(p))
  }

  /** When the placeholder first occurs at `i`, the prompt is the template
      with exactly that occurrence replaced by the persona text; later
      placeholders stay as they are, and a template without one is used
      unchanged. */
  lemma SystemInstructionSpec(template: string, p: CustomerPersona, i: nat)
    requires OccursAt(template, PERSONA_PLACEHOLDER, i)
    requires forall j :: 0 <= j < i ==> !OccursAt(template, PERSONA_PLACEHOLDER, j)
    ensures SystemInstruction(template, p)
      == template[..i] + PersonaText(p) + template[i + |PERSONA_PLACEHOLDER|..]
  {
    var k := IndexOf(template, PERSONA_PLACEHOLDER);
    assert k.Some?;
    assert k.value == i;
  }

  lemma SystemInstructionWithoutPlaceholder(template: string, p: CustomerPersona)
    requires forall j :: 0 <= j <= |template| ==> !OccursAt(template, PERSONA_PLACEHOLDER, j)
    ensures SystemInstruction(template, p) == template
  {
  }

  // ---------------------------------------------------------------------
  // Order items and their total (App.tsx:65-74, App.tsx:309)
  // ---------------------------------------------------------------------

  /** One entry of `fc.args.items` as the hosted model sends it. */
  datatype ItemRequest = ItemRequest(name: string, quantity: Option<int>, notes: Option<string>)

  /** The `MENU.find` test: the lower-cased dish name contains the
      lower-cased requested name. */
  predicate Matches(m: MenuItem, requested: string)
  {
    Includes(Lower(m.name), Lower(requested))
  }

  /** The index of the first entry at or after `from` that matches. */
  function FindFrom(menu: seq<MenuItem>, requested: string, from: nat): (r: Option<nat>)
    requires from <= |menu|
    ensures r.Some? ==> from <= r.value < |menu| && Matches(menu[r.value], requested)
    ensures r.Some? ==> forall j :: from <= j < r.value ==> !Matches(menu[j], requested)
    ensures r.None? ==> forall j :: from <= j < |menu| ==> !Matches(menu[j], requested)
    decreases |menu| - from
  {
    if from == |menu| then None
    else if Matches(menu[from], requested) then Some(from)
    else FindFrom(menu, requested, from + 1)
  }

  /** `MENU.find(...)`: the first matching entry, if there is one. */
  function FindMenuItem(menu: seq<MenuItem>, requested: string): (r: Option<MenuItem>)
    ensures r.Some? <==> exists j :: 0 <= j < |menu| && Matches(menu[j], requested)
    ensures r.Some? ==> exists j :: (0 <= j < |menu| && menu[j] == r.value && Matches(menu[j], requested)
      && forall k :: 0 <= k < j ==> !Matches(menu[k], requested))
  {
    match FindFrom(menu, requested, 0)
    case None => None
    case Some(j) => Some(menu[j])
  }

  /** JavaScript's `a || b` on strings: the empty string is falsy. */
  function OrElse(a: string, b: string): string
  {
    if a != "" then a else b
  }

  /** `item.quantity || 1`: a missing or zero quantity becomes 1. */
  function QuantityOrOne(q: Option<int>): (r: int)
    ensures r != 0
    ensures r == 1 <==> q.None? || q.value == 0 || q.value == 1
    ensures q.Some? && q.value != 0 ==> r == q.value
  {
    match q
    case Some(n) => if n != 0 then n else 1
    case None => 1
  }

  /** One step of `items.map`: `randomId` stands for `Math.random().toString()`. */
  function ResolveItem(menu: seq<MenuItem>, req: ItemRequest, randomId: string): OrderItem
  {
    var found := FindMenuItem(menu, req.name);
    OrderItem(
      id := OrElse(if found.Some? then found.value.id else "", randomId),
      name := OrElse(if found.Some? then found.value.name else "", req.name),
      quantity := QuantityOrOne(req.quantity),
      price := if found.Some? && found.value.price != 0 then found.value.price else 0,
      notes := req.notes)
  }

  /** How a requested item is resolved against the restaurant's menu: a hit
      takes id, name and price from the first matching dish; a miss keeps the
      requested name with price 0 and a random id; the quantity is never 0
      and notes are passed through. */
  lemma ResolveItemSpec(req: ItemRequest, randomId: string)
    ensures var r := ResolveItem(Menu.MENU, req, randomId);
      && r.notes == req.notes
      && r.quantity == QuantityOrOne(req.quantity)
      && r.price >= 0
      && (match FindMenuItem(Menu.MENU, req.name)
          case Some(m) =>
            (r.id == m.id && r.name == m.name && r.price == m.price
             && m in Menu.MENU && Matches(m, req.name))
          case None =>
            (r.id == randomId && r.name == req.name && r.price == 0
             && forall j :: 0 <= j < |Menu.MENU| ==> !Matches(Menu.MENU[j], req.name)))
  {
    Menu.MenuWellFormed();
  }

  /** An empty requested name matches every dish, so it resolves to the
      first menu entry. */
  lemma EmptyNameTakesFirstDish(req: ItemRequest, randomId: string)
    requires req.name == ""
    ensures FindMenuItem(Menu.MENU, req.name) == Some(Menu.MENU[0])
    ensures ResolveItem(Menu.MENU, req, randomId).id == "p1"
  {
    IncludesIff(Lower(Menu.MENU[0].name), Lower(req.name));
    assert FindFrom(Menu.MENU, req.name, 0) == Some(0);
  }

  /** `items.map(...)`, with one random id drawn per item. */
  function ResolveItems(menu: seq<MenuItem>, items: seq<ItemRequest>, randomIds: seq<string>): (r: seq<OrderItem>)
    requires |randomIds| == |items|
    ensures |r| == |items|
    ensures forall i :: 0 <= i < |items| ==> r[i] == ResolveItem(menu, items[i], randomIds[i])
  {
    seq(|items|, i requires 0 <= i < |items| => ResolveItem(menu, items[i], randomIds[i]))
  }

  function Subtotal(item: OrderItem): int
  {
    item.price * item.quantity
  }

  /** `totalAmount`: `order.reduce((sum, item) => sum + price * quantity, 0)`,
      a fold from the left. */
  function TotalAmount(order: seq<OrderItem>): int
  {
    if order == [] then 0
    else TotalAmount(order[..|order| - 1]) + Subtotal(order[|order| - 1])
  }

  /** The total of a concatenation is the sum of the totals, so appending
      items adds exactly their subtotals. */
  lemma {:induction false} TotalAmountAppend(a: seq<OrderItem>, b: seq<OrderItem>)
    ensures TotalAmount(a + b) == TotalAmount(a) + TotalAmount(b)
    decreases |b|
  {
    if b == [] {
      assert a + b == a;
    } else {
      var b' := b[..|b| - 1];
      assert (a + b)[..|a + b| - 1] == a + b';
      TotalAmountAppend(a, b');
    }
  }

  /** The empty order costs nothing, and an order whose prices and
      quantities are non-negative has a non-negative total. */
  lemma {:induction false} TotalAmountNonNegative(order: seq<OrderItem>)
    requires forall i :: 0 <= i < |order| ==> order[i].price >= 0 && order[i].quantity >= 0
    ensures TotalAmount([]) == 0
    ensures TotalAmount(order) >= 0
  {
    if order != [] {
      TotalAmountNonNegative(order[..|order| - 1]);
      var last := order[|order| - 1];
      assert Subtotal(last) >= 0 by {
        assert last.price >= 0 && last.quantity >= 0;
      }
    }
  }

  // ---------------------------------------------------------------------
  // Tool-call dispatch (App.tsx:62-95)
  // ---------------------------------------------------------------------

  const UPDATE_ORDER: string := "update_order"
  const BOOK_RESERVATION: string := "book_reservation"
  const TRANSFER_TO_STAFF: string := "transfer_to_staff"

  predicate KnownTool(name: string)
  {
    name == UPDATE_ORDER || name == BOOK_RESERVATION || name == TRANSFER_TO_STAFF
  }

  /** The arguments a tool call may carry; each branch reads only its own. */
  datatype CallArgs = CallArgs(items: seq<ItemRequest>, booking: Reservation, reason: Option<string>)

  datatype FunctionCall = FunctionCall(name: string, args: CallArgs)

  datatype Status = Success | Error

  datatype ToolResult = ToolResult(status: Status, message: string)

  /** What one handler call draws from its environment: the log clock, one
      `Math.random()` id per ordered item, and the `Math.random()` value that
      becomes the POS ticket number. */
  datatype Draws = Draws(clock: string, randomIds: seq<string>, ticketDraw: real)

  datatype Step = Step(state: AppState, result: ToolResult)

  /** The draws suit the call: one random id per ordered item, and a random
      value in [0, 1) as `Math.random` yields. */
  predicate DrawsFit(fc: FunctionCall, d: Draws)
  {
    fc.name == UPDATE_ORDER ==> |d.randomIds| == |fc.args.items| && 0.0 <= d.ticketDraw < 1.0
  }

  /** `Math.floor(Math.random() * 9000) + 1000`: always a four-digit number. */
  function TicketNumber(draw: real): (t: nat)
    requires 0.0 <= draw < 1.0
    ensures 1000 <= t <= 9999
  {
    var x := draw * 9000.0;
    assert 0.0 <= x < 9000.0;
    assert 0 <= x.Floor < 9000 by {
      assert x.Floor as real <= x < x.Floor as real + 1.0;
    }
    x.Floor + 1000
  }

  const POS_LOG_HEAD: string := "INTEGRATION: POS (Lightspeed) - Order #FE-"
  const POS_LOG_TAIL: string := " Synced."
  const KITCHEN_LOG: string := "KITCHEN: Printing ticket to Pastry Station & Main Line."
  const WHATSAPP_LOG: string := "WHATSAPP: Customer notification sent (+ SMS receipt)."
  const PAYMENT_LOG: string := "PAYMENT: SMS secure link dispatched to customer."
  const CALENDAR_LOG_HEAD: string := "CALENDAR: Table #4 held for "
  const SMS_LOG_HEAD: string := "SMS: Reservation confirmed for "
  const ALARM_LOG_HEAD: string := "ALARM: Staff handoff required. Reason: "
  const DEFAULT_REASON: string := "Complex Query"

  const ORDER_REPLY: string := "Order processed. SMS payment link and receipt sent."
  const RESERVATION_REPLY: string := "Reservation secured in the master waitlist."
  const TRANSFER_REPLY: string := "Connecting to human supervisor..."
  const ERROR_REPLY: string := "Interface logic error"

  /** The four log lines written when an order is synced, oldest first. */
  function OrderLogs(ticket: nat): seq<string>
  {
    [POS_LOG_HEAD + NatToString(ticket) + POS_LOG_TAIL, KITCHEN_LOG, WHATSAPP_LOG, PAYMENT_LOG]
  }

  /** The two log lines written when a table is booked, oldest first. */
  function ReservationLogs(res: Reservation): seq<string>
  {
    [CALENDAR_LOG_HEAD + res.name + ".", SMS_LOG_HEAD + res.date + " at " + res.time + "."]
  }

  /** `fc.args.reason || 'Complex Query'` */
  function HandoffReason(reason: Option<string>): (r: string)
    ensures r != ""
    ensures reason.Some? && reason.value != "" ==> r == reason.value
    ensures reason.None? || reason.value == "" ==> r == DEFAULT_REASON
  {
    OrElse(if reason.Some? then reason.value else "", DEFAULT_REASON)
  }

  /** The `update_order` branch: the resolved items are appended to the
      order, then four lines are logged. */
  function UpdateOrder(menu: seq<MenuItem>, s: AppState, items: seq<ItemRequest>, d: Draws): AppState
    requires |d.randomIds| == |items| && 0.0 <= d.ticketDraw < 1.0
  {
    var s1 := s.(order := s.order + ResolveItems(menu, items, d.randomIds));
    s1.(logs := AddLogs(s1.logs, d.clock, OrderLogs(TicketNumber(d.ticketDraw))))
  }

  /** The `book_reservation` branch. */
  function BookReservation(s: AppState, res: Reservation, clock: string): AppState
  {
    var s1 := s.(reservation := Some(res));
    s1.(logs := AddLogs(s1.logs, clock, ReservationLogs(res)))
  }

  /** The `transfer_to_staff` branch. */
  function TransferToStaff(s: AppState, reason: Option<string>, clock: string): AppState
  {
    var s1 := s.(handoffRequested := true);
    s1.(logs := AddLog(s1.logs, clock, ALARM_LOG_HEAD + HandoffReason(reason)))
  }

  /** `handleToolCall`: the state after the call and the result reported back. */
  function HandleToolCall(menu: seq<MenuItem>, s: AppState, fc: FunctionCall, d: Draws): Step
    requires DrawsFit(fc, d)
  {
    if fc.name == UPDATE_ORDER then
      Step(UpdateOrder(menu, s, fc.args.items, d), ToolResult(Success, ORDER_REPLY))
    else if fc.name == BOOK_RESERVATION then
      Step(BookReservation(s, fc.args.booking, d.clock), ToolResult(Success, RESERVATION_REPLY))
    else if fc.name == TRANSFER_TO_STAFF then
      Step(TransferToStaff(s, fc.args.reason, d.clock), ToolResult(Success, TRANSFER_REPLY))
    else
      Step(s, ToolResult(Error, ERROR_REPLY))
  }

  /** The reply each tool name earns, as a table: exactly the three known
      tools report success. */
  function ToolResultFor(name: string): (r: ToolResult)
    ensures r.status == Success <==> KnownTool(name)
    ensures !KnownTool(name) ==> r == ToolResult(Error, ERROR_REPLY)
  {
    if name == UPDATE_ORDER then ToolResult(Success, ORDER_REPLY)
    else if name == BOOK_RESERVATION then ToolResult(Success, RESERVATION_REPLY)
    else if name == TRANSFER_TO_STAFF then ToolResult(Success, TRANSFER_REPLY)
    else ToolResult(Error, ERROR_REPLY)
  }

  /** The reply of a call depends on the tool name alone, and a call to an
      unknown tool leaves the state exactly as it was. */
  lemma ToolStatusSpec(menu: seq<MenuItem>, s: AppState, fc: FunctionCall, d: Draws)
    requires DrawsFit(fc, d)
    ensures HandleToolCall(menu, s, fc, d).result == ToolResultFor(fc.name)
    ensures !KnownTool(fc.name) ==> HandleToolCall(menu, s, fc, d).state == s
  {
  }

  /** `update_order` appends exactly one resolved item per requested item,
      in request order, after the untouched old order, so the total grows by
      exactly their subtotals; the reservation, the handoff flag, the
      transcript and the other flags do not change. */
  lemma UpdateOrderSpec(menu: seq<MenuItem>, s: AppState, items: seq<ItemRequest>, d: Draws)
    requires |d.randomIds| == |items| && 0.0 <= d.ticketDraw < 1.0
    ensures var t := UpdateOrder(menu, s, items, d);
      var n := |s.order|;
      && |t.order| == n + |items|
      && t.order[..n] == s.order
      && (forall i :: 0 <= i < |items| ==> t.order[n + i] == ResolveItem(menu, items[i], d.randomIds[i]))
      && TotalAmount(t.order) == TotalAmount(s.order) + TotalAmount(t.order[n..])
      && t.reservation == s.reservation
      && t.handoffRequested == s.handoffRequested
      && t.chatHistory == s.chatHistory
      && t.isThinking == s.isThinking && t.isCalling == s.isCalling
      && t.persona == s.persona
  {
    var newItems := ResolveItems(menu, items, d.randomIds);
    var t := UpdateOrder(menu, s, items, d);
    assert t.order == s.order + newItems;
    assert t.order[|s.order|..] == newItems;
    TotalAmountAppend(s.order, newItems);
  }

  /** `update_order` writes four log lines, the POS sync first and the
      payment link last (so in front), keeping the log bounded. */
  lemma UpdateOrderLogsSpec(menu: seq<MenuItem>, s: AppState, items: seq<ItemRequest>, d: Draws)
    requires |d.randomIds| == |items| && 0.0 <= d.ticketDraw < 1.0
    ensures var logs := UpdateOrder(menu, s, items, d).logs;
      && |logs| == Min(|s.logs| + 4, MAX_LOGS)
      && logs[..4] == [ LogLine(d.clock, PAYMENT_LOG), LogLine(d.clock, WHATSAPP_LOG), LogLine(d.clock, KITCHEN_LOG),
                        LogLine(d.clock, POS_LOG_HEAD + NatToString(TicketNumber(d.ticketDraw)) + POS_LOG_TAIL) ]
      && logs[4..] == s.logs[..|logs| - 4]
  {
    AddLogsNewestFirst(s.logs, d.clock, OrderLogs(TicketNumber(d.ticketDraw)));
  }

  /** `book_reservation` replaces the reservation and writes two log lines;
      nothing else changes. */
  lemma BookReservationSpec(menu: seq<MenuItem>, s: AppState, fc: FunctionCall, d: Draws)
    requires fc.name == BOOK_RESERVATION
    ensures var r := HandleToolCall(menu, s, fc, d);
      && r.state.reservation == Some(fc.args.booking)
      && r.state.order == s.order
      && r.state.handoffRequested == s.handoffRequested
      && r.state.chatHistory == s.chatHistory
      && r.state.isThinking == s.isThinking && r.state.isCalling == s.isCalling
      && r.state.persona == s.persona
      && |r.state.logs| == Min(|s.logs| + 2, MAX_LOGS)
      && r.state.logs[..2] == [ LogLine(d.clock, SMS_LOG_HEAD + fc.args.booking.date + " at " + fc.args.booking.time + "."),
                                LogLine(d.clock, CALENDAR_LOG_HEAD + fc.args.booking.name + ".") ]
      && r.state.logs[2..] == s.logs[..|r.state.logs| - 2]
      && r.result == ToolResult(Success, RESERVATION_REPLY)
  {
    var msgs := ReservationLogs(fc.args.booking);
    assert HandleToolCall(menu, s, fc, d).state.logs == AddLogs(s.logs, d.clock, msgs);
    AddLogsNewestFirst(s.logs, d.clock, msgs);
  }

  /** `transfer_to_staff` only raises the handoff flag and logs the reason,
      'Complex Query' when none is given. */
  lemma TransferToStaffSpec(menu: seq<MenuItem>, s: AppState, fc: FunctionCall, d: Draws)
    requires fc.name == TRANSFER_TO_STAFF
    ensures var r := HandleToolCall(menu, s, fc, d);
      && r.state.handoffRequested
      && r.state.order == s.order
      && r.state.reservation == s.reservation
      && r.state.chatHistory == s.chatHistory
      && r.state.isThinking == s.isThinking && r.state.isCalling == s.isCalling
      && r.state.persona == s.persona
      && |r.state.logs| == Min(|s.logs| + 1, MAX_LOGS)
      && r.state.logs[0] == LogLine(d.clock, ALARM_LOG_HEAD
           + (if fc.args.reason.None? || fc.args.reason.value == "" then DEFAULT_REASON else fc.args.reason.value))
      && r.state.logs[1..] == s.logs[..|r.state.logs| - 1]
      && r.result == ToolResult(Success, TRANSFER_REPLY)
  {
  }

  /** What every tool call leaves alone: the transcript, the thinking and
      call flags and the persona; the order only grows at its end, a handoff
      once requested stays requested, and the log stays bounded. */
  lemma HandleToolCallFrame(menu: seq<MenuItem>, s: AppState, fc: FunctionCall, d: Draws)
    requires DrawsFit(fc, d)
    ensures var t := HandleToolCall(menu, s, fc, d).state;
      && t.chatHistory == s.chatHistory
      && t.isThinking == s.isThinking && t.isCalling == s.isCalling
      && t.persona == s.persona
      && |s.order| <= |t.order| && t.order[..|s.order|] == s.order
      && (s.handoffRequested ==> t.handoffRequested)
      && (Valid(s) ==> Valid(t))
  {
    if fc.name == UPDATE_ORDER {
      UpdateOrderSpec(menu, s, fc.args.items, d);
      UpdateOrderLogsSpec(menu, s, fc.args.items, d);
    } else if fc.name == BOOK_RESERVATION {
      BookReservationSpec(menu, s, fc, d);
    } else if fc.name == TRANSFER_TO_STAFF {
      TransferToStaffSpec(menu, s, fc, d);
    }
  }

  // ---------------------------------------------------------------------
  // Handling a batch of tool calls (App.tsx:163-167, App.tsx:289-294)
  // ---------------------------------------------------------------------

  predicate AllDrawsFit(calls: seq<FunctionCall>, draws: seq<Draws>)
  {
    |draws| == |calls| && forall i :: 0 <= i < |calls| ==> DrawsFit(calls[i], draws[i])
  }

  /** The state after handling `calls` one after the other. */
  function ApplyCalls(menu: seq<MenuItem>, s: AppState, calls: seq<FunctionCall>, draws: seq<Draws>): AppState
    requires AllDrawsFit(calls, draws)
  {
    if calls == [] then s
    else
      var n := |calls| - 1;
      HandleToolCall(menu, ApplyCalls(menu, s, calls[..n], draws[..n]), calls[n], draws[n]).state
  }

  /** Handling one more call extends the run by one dispatcher step. */
  lemma ApplyCallsStep(menu: seq<MenuItem>, s: AppState, calls: seq<FunctionCall>, draws: seq<Draws>, i: nat)
    requires AllDrawsFit(calls, draws) && i < |calls|
    ensures AllDrawsFit(calls[..i], draws[..i]) && AllDrawsFit(calls[..i + 1], draws[..i + 1])
    ensures ApplyCalls(menu, s, calls[..i + 1], draws[..i + 1])
      == HandleToolCall(menu, ApplyCalls(menu, s, calls[..i], draws[..i]), calls[i], draws[i]).state
  {
    assert calls[..i + 1][..i] == calls[..i];
    assert draws[..i + 1][..i] == draws[..i];
  }

  /** The `for (const fc of functionCalls) handleToolCall(fc)` loop: applies
      the calls in order and collects each call's result, which the live
      session sends back to the hosted model. */
  method HandleToolCalls(menu: seq<MenuItem>, s: AppState, calls: seq<FunctionCall>, draws: seq<Draws>)
    returns (t: AppState, results: seq<ToolResult>)
    requires AllDrawsFit(calls, draws)
    ensures t == ApplyCalls(menu, s, calls, draws)
    ensures |results| == |calls|
    ensures forall i :: 0 <= i < |calls| ==> results[i] == ToolResultFor(calls[i].name)
  {
    t, results := s, [];
    var i := 0;
    while i < |calls|
      invariant 0 <= i <= |calls|
      invariant t == ApplyCalls(menu, s, calls[..i], draws[..i])
      invariant |results| == i
      invariant forall k :: 0 <= k < i ==> results[k] == ToolResultFor(calls[k].name)
    {
      var step := HandleToolCall(menu, t, calls[i], draws[i]);
      ToolStatusSpec(menu, t, calls[i], draws[i]);
      ApplyCallsStep(menu, s, calls, draws, i);
      t, results := step.state, results + [step.result];
      i := i + 1;
    }
    assert calls[..i] == calls && draws[..i] == draws;
  }

  /** Tool calls never touch the transcript, the thinking flag, the call
      flag or the persona; the order only grows at its end; the log stays
      bounded; and once a handoff is requested it stays requested. */
  lemma {:induction false} ApplyCallsFrame(menu: seq<MenuItem>, s: AppState, calls: seq<FunctionCall>, draws: seq<Draws>)
    requires AllDrawsFit(calls, draws)
    ensures var t := ApplyCalls(menu, s, calls, draws);
      && t.chatHistory == s.chatHistory
      && t.isThinking == s.isThinking && t.isCalling == s.isCalling
      && t.persona == s.persona
      && |s.order| <= |t.order| && t.order[..|s.order|] == s.order
      && (s.handoffRequested ==> t.handoffRequested)
      && (Valid(s) ==> Valid(t))
  {
    if calls != [] {
      var n := |calls| - 1;
      ApplyCallsFrame(menu, s, calls[..n], draws[..n]);
      var mid := ApplyCalls(menu, s, calls[..n], draws[..n]);
      HandleToolCallFrame(menu, mid, calls[n], draws[n]);
      var t := HandleToolCall(menu, mid, calls[n], draws[n]).state;
      assert t == ApplyCalls(menu, s, calls, draws);
      assert t.order[..|s.order|] == t.order[..|mid.order|][..|s.order|];
    }
  }

  // ---------------------------------------------------------------------
  // The text-chat path (App.tsx:97-178)
  // ---------------------------------------------------------------------

  /** The page state `handleSendMessage` reads and writes: the app record
      and the text box. */
  datatype Page = Page(app: AppState, inputText: string)

  /** What the awaited `sendMessage` produced: a reply with its tool calls
      and its text, or a thrown error. */
  datatype ChatOutcome =
    | Replied(functionCalls: seq<FunctionCall>, text: Option<string>)
    | Failed

  /** The part of `handleSendMessage` before the await: a blank input
      returns at once (without even clearing the box); otherwise the box is
      cleared, the user's line is appended and the thinking flag is set. */
  function BeginSend(p: Page, sentAt: int): (r: Page)
    ensures IsBlank(p.inputText) ==> r == p
    ensures !IsBlank(p.inputText) ==>
      && r.inputText == ""
      && r.app == p.app.(chatHistory := p.app.chatHistory + [ChatMessage(User, p.inputText, sentAt)],
                         isThinking := true)
  {
    if IsBlank(p.inputText) then p
    else Page(p.app.(chatHistory := p.app.chatHistory + [ChatMessage(User, p.inputText, sentAt)],
                     isThinking := true), "")
  }

  const CONFIRMED: string := "Confirmed."

  /** `response.text || "Confirmed."` */
  function ReplyText(text: Option<string>): (r: string)
    ensures r != ""
    ensures text.Some? && text.value != "" ==> r == text.value
    ensures text.None? || text.value == "" ==> r == CONFIRMED
  {
    OrElse(if text.Some? then text.value else "", CONFIRMED)
  }

  predicate OutcomeFits(outcome: ChatOutcome, draws: seq<Draws>)
  {
    outcome.Replied? ==> AllDrawsFit(outcome.functionCalls, draws)
  }

  /** The part of `handleSendMessage` after the await, applied to whatever
      the state is by then: on a reply its tool calls run, the model's line
      is appended and the thinking flag cleared; on an error only the flag
      is cleared. */
  function FinishSend(menu: seq<MenuItem>, s: AppState, outcome: ChatOutcome, draws: seq<Draws>, repliedAt: int): AppState
    requires OutcomeFits(outcome, draws)
  {
    match outcome
    case Failed => s.(isThinking := false)
    case Replied(calls, text) =>
      var t := ApplyCalls(menu, s, calls, draws);
      t.(chatHistory := t.chatHistory + [ChatMessage(Model, ReplyText(text), repliedAt)],
         isThinking := false)
  }

  /** `handleSendMessage` when nothing else updates the state during the await. */
  function SendMessage(menu: seq<MenuItem>, p: Page, outcome: ChatOutcome, draws: seq<Draws>, sentAt: int, repliedAt: int): Page
    requires OutcomeFits(outcome, draws)
  {
    var q := BeginSend(p, sentAt);
    if IsBlank(p.inputText) then q
    else q.(app := FinishSend(menu, q.app, outcome, draws, repliedAt))
  }

  /** A blank (whitespace-only) input changes nothing at all. */
  lemma SendBlankIsNoOp(menu: seq<MenuItem>, p: Page, outcome: ChatOutcome, draws: seq<Draws>, sentAt: int, repliedAt: int)
    requires OutcomeFits(outcome, draws)
    requires IsBlank(p.inputText)
    ensures SendMessage(menu, p, outcome, draws, sentAt, repliedAt) == p
  {
  }

  /** On a reply the transcript gains exactly the user's line and then the
      model's line ("Confirmed." for an empty text), the box is cleared, the
      thinking flag ends false, the tool calls' effects are those of the
      dispatcher, and the log stays bounded. */
  lemma SendRepliedSpec(menu: seq<MenuItem>, p: Page, calls: seq<FunctionCall>, text: Option<string>, draws: seq<Draws>, sentAt: int, repliedAt: int)
    requires AllDrawsFit(calls, draws)
    requires !IsBlank(p.inputText)
    ensures var r := SendMessage(menu, p, Replied(calls, text), draws, sentAt, repliedAt);
      && r.inputText == ""
      && r.app.chatHistory == p.app.chatHistory
           + [ChatMessage(User, p.inputText, sentAt), ChatMessage(Model, ReplyText(text), repliedAt)]
      && (text.None? || text.value == "" ==> r.app.chatHistory[|r.app.chatHistory| - 1].text == CONFIRMED)
      && !r.app.isThinking
      && r.app.persona == p.app.persona && r.app.isCalling == p.app.isCalling
      && |p.app.order| <= |r.app.order| && r.app.order[..|p.app.order|] == p.app.order
      && (Valid(p.app) ==> Valid(r.app))
      && var t := ApplyCalls(menu, BeginSend(p, sentAt).app, calls, draws);
         r.app.order == t.order && r.app.reservation == t.reservation
         && r.app.handoffRequested == t.handoffRequested && r.app.logs == t.logs
  {
    var q := BeginSend(p, sentAt);
    ApplyCallsFrame(menu, q.app, calls, draws);
  }

  /** On an error the user's line stays, the flag is cleared, and nothing
      else changes. */
  lemma SendFailedSpec(menu: seq<MenuItem>, p: Page, sentAt: int, repliedAt: int)
    requires !IsBlank(p.inputText)
    ensures var r := SendMessage(menu, p, Failed, [], sentAt, repliedAt);
      && r.inputText == ""
      && r.app == p.app.(chatHistory := p.app.chatHistory + [ChatMessage(User, p.inputText, sentAt)],
                         isThinking := false)
  {
  }

  // ---------------------------------------------------------------------
  // Transcripts and tool calls of the live session (App.tsx:282-294)
  // ---------------------------------------------------------------------

  /** The parts of a live server message the state depends on. */
  datatype LiveMessage = LiveMessage(
    inputTranscription: Option<string>,
    outputTranscription: Option<string>,
    toolCalls: Option<seq<FunctionCall>>)

  predicate LiveDrawsFit(msg: LiveMessage, draws: seq<Draws>)
  {
    msg.toolCalls.Some? ==> AllDrawsFit(msg.toolCalls.value, draws)
  }

  /** `onmessage` on the app state: the caller's transcript, then the
      model's transcript, then the tool calls; `heardAt` and `spokenAt` stand
      for the two separate `new Date()` reads. */
  function OnLiveMessage(menu: seq<MenuItem>, s: AppState, msg: LiveMessage, draws: seq<Draws>, heardAt: int, spokenAt: int): AppState
    requires LiveDrawsFit(msg, draws)
  {
    var heard := if msg.inputTranscription.Some?
      then [ChatMessage(User, msg.inputTranscription.value, heardAt)] else [];
    var spoken := if msg.outputTranscription.Some?
      then [ChatMessage(Model, msg.outputTranscription.value, spokenAt)] else [];
    var s1 := s.(chatHistory := s.chatHistory + heard + spoken);
    if msg.toolCalls.Some? then ApplyCalls(menu, s1, msg.toolCalls.value, draws) else s1
  }

  /** A live message appends exactly one transcript line per transcription
      it carries, the caller's before the model's, whether or not it also
      carries tool calls; without tool calls nothing else changes, and with
      them the calls run after the transcript is updated. The log stays
      bounded. */
  lemma OnLiveMessageSpec(menu: seq<MenuItem>, s: AppState, msg: LiveMessage, draws: seq<Draws>, heardAt: int, spokenAt: int)
    requires LiveDrawsFit(msg, draws)
    ensures var t := OnLiveMessage(menu, s, msg, draws, heardAt, spokenAt);
      && t.chatHistory == s.chatHistory
           + (if msg.inputTranscription.Some? then [ChatMessage(User, msg.inputTranscription.value, heardAt)] else [])
           + (if msg.outputTranscription.Some? then [ChatMessage(Model, msg.outputTranscription.value, spokenAt)] else [])
      && (msg.toolCalls.None? ==> t == s.(chatHistory := t.chatHistory))
      && (msg.toolCalls.Some? ==> t == ApplyCalls(menu, s.(chatHistory := t.chatHistory), msg.toolCalls.value, draws))
      && (Valid(s) ==> Valid(t))
  {
    var heard := if msg.inputTranscription.Some?
      then [ChatMessage(User, msg.inputTranscription.value, heardAt)] else [];
    var spoken := if msg.outputTranscription.Some?
      then [ChatMessage(Model, msg.outputTranscription.value, spokenAt)] else [];
    var s1 := s.(chatHistory := s.chatHistory + heard + spoken);
    if msg.toolCalls.Some? {
      ApplyCallsFrame(menu, s1, msg.toolCalls.value, draws);
    }
  }
}
