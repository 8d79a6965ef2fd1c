/** The rows of the ticket database and the values that travel between its services.
    A row's id is its position in its table: no service deletes agents, chats, customers,
    tickets, messages or events. Times are integer milliseconds since the epoch. */
module Types {
  datatype Option<+T> = None | Some(value: T)

  type AgentId = nat
  type TeamId = nat
  type LabelId = nat
  type ExcludedId = nat
  type ChatId = nat
  type GroupId = nat
  type CustomerId = nat
  type TicketId = nat
  type MessageId = nat

  const MINUTE: int := 60_000

  datatype Status = Open | Pending | OnHold | Solved | Closed | Archived {
    /** No customer message may reach the ticket any more. */
    predicate Terminal() { Closed? || Archived? }

    /** The ticket counts towards an agent's load and a chat's backlog. */
    predicate Live() { !Solved? && !Closed? && !Archived? }
  }

  datatype Priority = Urgent | High | Normal | Low
  datatype Strategy = Manual | RoundRobin | LeastBusy
  datatype Direction = In | Out
  datatype Sender = FromCustomer | FromAgent | FromBot

  /** An optional nullable request field: absent, null, or a value. */
  datatype Field<+T> = Keep | Clear | Set(value: T) {
    function Over(previous: Option<T>): Option<T> {
      match this
      case Keep => previous
      case Clear => None
      case Set(v) => Some(v)
    }
  }

  datatype Agent = Agent(telegramId: int, isActive: bool)

  datatype Chat = Chat(
    telegramId: int, title: string, team: Option<TeamId>, assignee: Option<AgentId>,
    strategy: Strategy, priority: Priority, group: Option<GroupId>, tags: seq<string>)

  datatype Customer = Customer(telegramId: int, username: Option<string>, name: string)

  /** Who an excluded sender is and why, for the administrators' eyes. */
  datatype About = About(name: Option<string>, note: Option<string>)

  datatype Excluded = Excluded(telegramId: Option<int>, username: Option<string>, isActive: bool, about: About)

  datatype Ticket = Ticket(
    chat: ChatId, customer: CustomerId, status: Status, priority: Priority,
    assignee: Option<AgentId>, team: Option<TeamId>,
    anchor: int, lastClient: Option<int>, jira: Option<string>, labels: set<LabelId>,
    createdAt: int, updatedAt: int,
    firstResponseAt: Option<int>, resolvedAt: Option<int>, snoozeUntil: Option<int>,
    closedAt: Option<int>, closedBy: Option<AgentId>)

  datatype Message = Message(
    ticket: TicketId, direction: Direction, sender: Sender, agent: Option<AgentId>,
    tgId: Option<int>, text: Option<string>, createdAt: int)

  datatype PatchDto = PatchDto(
    status: Option<Status>, priority: Option<Priority>,
    assignee: Field<AgentId>, team: Field<TeamId>, labels: Option<seq<LabelId>>,
    snooze: Field<int>, jira: Field<string>)

  /** A request that mentions nothing but a status. */
  function StatusOnly(s: Status): PatchDto {
    PatchDto(Some(s), None, Keep, Keep, None, Keep, Keep)
  }

  datatype Change =
    | Updated(dto: PatchDto)
    | Assigned(agent: AgentId, previous: Option<AgentId>, reason: Option<string>)

  datatype Event = Event(ticket: TicketId, author: Option<AgentId>, change: Change, createdAt: int)

  /** A job of the outbound queue: which row to send, where, and which message to quote. */
  datatype Job = Job(
    ticket: TicketId, message: MessageId, chatTg: int, text: Option<string>, replyTo: Option<int>)

  /** A normalized incoming message. */
  datatype Incoming = Incoming(
    chatTg: int, chatTitle: string, tgId: int,
    fromTg: int, username: Option<string>, name: string,
    text: Option<string>, replyTo: Option<int>)

  datatype QuoteMode = Auto | Force | Never

  datatype Error = NotFound | Rejected

  /** The tables that configuration and sender detection write. */
  datatype Directory = Directory(
    idleMinutes: int,
    agents: seq<Agent>, teamCount: nat, members: set<(TeamId, AgentId)>, labelCount: nat,
    excluded: map<ExcludedId, Excluded>, nextExcluded: ExcludedId,
    chats: seq<Chat>, customers: seq<Customer>, groupCount: nat)

  /** Where an inbound row came from, and the row it replied to when it was placed by that reply. */
  datatype Arrival = Arrival(incoming: Incoming, repliedRow: Option<MessageId>)

  /** History variables: no operation reads them, they only let properties speak of the past. */
  datatype History = History(
    born: seq<Ticket>,                    // every ticket as it was created
    arrivals: map<MessageId, Arrival>,    // every inbound row
    unlogged: set<TicketId>,              // closed by mark-not-customer since the last logged status
    autoQuoted: set<MessageId>,           // agent replies that quoted without being told to
    given: map<AgentId, int>)             // when each agent was last given a ticket

  /** The tables of the ticket desk proper. */
  datatype Desk = Desk(
    tickets: seq<Ticket>, messages: seq<Message>, events: seq<Event>, outbox: seq<Job>,
    past: History)
}
