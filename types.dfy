/** The records of the concierge front end (types.ts), as Dafny values.
    Money is held in integer cents; JavaScript `Date` values are abstract
    integer timestamps supplied by the caller. */
module Types {

  datatype Option<+T> = None | Some(value: T)

  /** Menu categories (types.ts:7). */
  datatype Category = Pastries | MainCourse | Drinks | Desserts

  /** A dish on the menu (types.ts:2-9); `price` is in cents. */
  datatype MenuItem = MenuItem(
    id: string,
    name: string,
    price: nat,
    description: string,
    category: Category,
    image: string)

  /** A line of the customer's order (types.ts:11-17); `price` is in cents. */
  datatype OrderItem = OrderItem(
    id: string,
    name: string,
    quantity: int,
    price: int,
    notes: Option<string>)

  /** A table booking (types.ts:19-25). */
  datatype Reservation = Reservation(
    name: string,
    date: string,
    time: string,
    guests: int,
    phone: Option<string>)

  datatype Role = User | Model

  /** One line of the transcript (types.ts:27-31); `timestamp` stands for `new Date()`. */
  datatype ChatMessage = ChatMessage(role: Role, text: string, timestamp: int)

  datatype Gender = Male | Female | Either
  datatype AgeGroup = Young | Old | Baby

  datatype CustomerPersona = CustomerPersona(gender: Gender, age: AgeGroup)

  /** The whole UI state (types.ts:41-50). */
  datatype AppState = AppState(
    isCalling: bool,
    order: seq<OrderItem>,
    reservation: Option<Reservation>,
    chatHistory: seq<ChatMessage>,
    isThinking: bool,
    handoffRequested: bool,
    persona: CustomerPersona,
    logs: seq<string>)
}
