/** Records of the marketplace ledger: accounts, events, tickets, cart lines and
    ledger entries, as the database tables of app.py hold them. Money is kept in
    integer cents; ids of events and tickets are their positions in the store. */
module Types {

  datatype Option<+T> = None | Some(value: T)

  /** A wallet address; also the two pseudo-addresses written into the ledger. */
  type Address = string

  /** An amount of money in cents. */
  type Money = int

  const Bank: Address := "BANK"
  const System: Address := "SYSTEM"

  datatype Role = Admin | Organizer | Reseller | Customer

  /** A user row, without the credential columns. */
  datatype Account = Account(role: Role, parent: Option<Address>, balance: Money, active: bool)

  /** An event row; `cap` is the maximum resale price. */
  datatype Event = Event(creator: Address, name: string, symbol: string, date: string,
                         wholesale: Money, cap: Money)

  /** A ticket row; `event` is the index of its event. */
  datatype Ticket = Ticket(event: nat, owner: Address, listed: bool, price: Option<Money>)

  /** A cart row: `user` is the buyer, `seller` the wallet the line buys from. */
  datatype CartLine = CartLine(id: nat, user: Address, event: int, seller: Address,
                               quantity: int, price: Money)

  datatype Kind = Mint | TopUp | Withdraw | Wholesale | Purchase

  /** The `event_name` column: either the event's name or one of the fixed texts
      ("MINT <supply>x <symbol>", "Wallet Top-Up", "Withdrawal"). */
  datatype Label = MintLabel(supply: int, symbol: string) | TopUpLabel | WithdrawalLabel
                 | EventName(name: string)

  /** A transaction row of the ledger. */
  datatype Entry = Entry(hash: string, ticket: Option<nat>, eventName: Label, from: Address,
                         to: Address, amount: Money, kind: Kind)

  /** Why an operation changed nothing. */
  datatype Reason =
    | Unauthorized       // the 403 returns
    | NotFound           // get_or_404
    | MissingRecord      // a lookup returned None and the handler failed on it
    | WrongSource        // bulk_acquire from an organizer that is not the parent
    | InsufficientFunds
    | InsufficientStock  // bulk_acquire finds too few listed tickets
    | StockChanged       // checkout finds too few tickets for a cart line
    | PriceCapExceeded
    | EmptyCart

  datatype Result<+T> = Ok(value: T) | Err(reason: Reason)

  datatype Status = Success | Failure(reason: Reason)

  /** The whole persistent state: the four tables, the cart table with the next
      cart row id, and the ledger. */
  datatype World = World(accounts: map<Address, Account>, events: seq<Event>,
                         tickets: seq<Ticket>, cart: seq<CartLine>, nextLine: nat,
                         ledger: seq<Entry>)
}
