/**
 * The rows of the ticket store's tables (shared/schema.ts) and the insert shapes the
 * store accepts, with the column defaults the database fills in.
 *
 * Conventions: a nullable column is an `Option`; in an insert shape a column that has a
 * default is an `Option` too, `None` meaning "key left out, use the default", and a
 * nullable column with a default is `Option<Option<_>>` (left out / explicit null /
 * value). Timestamps are whole numbers (milliseconds); `jsonb` values are string maps
 * or lists.
 */
module Schema {
  import opened Wrappers

  datatype TelegramUser = TelegramUser(
    id: int, telegramId: string, username: Option<string>, firstName: Option<string>,
    lastName: Option<string>, role: string, isActive: Option<bool>, createdAt: int)

  datatype TicketTemplate = TicketTemplate(
    id: int, name: string, description: Option<string>, category: string,
    requiredFields: Option<seq<string>>, estimatedTime: Option<int>, priority: string,
    isActive: Option<bool>, createdAt: int)

  datatype Ticket = Ticket(
    id: int, templateId: Option<int>, title: string, description: Option<string>,
    category: string, priority: string, status: string, requesterId: Option<int>,
    assigneeId: Option<int>, requestData: Option<map<string, string>>, response: Option<string>,
    estimatedTime: Option<int>, actualTime: Option<int>, dueDate: Option<int>,
    completedAt: Option<int>, createdAt: int, updatedAt: int)

  datatype TicketComment = TicketComment(
    id: int, ticketId: Option<int>, userId: Option<int>, comment: string,
    isInternal: Option<bool>, createdAt: int)

  datatype TelegramMessage = TelegramMessage(
    id: int, telegramId: string, messageId: Option<string>, ticketId: Option<int>,
    messageType: string, content: Option<string>, createdAt: int)

  // Insert shapes: `id`, `createdAt` and `updatedAt` are not among their fields.

  datatype InsertTelegramUser = InsertTelegramUser(
    telegramId: string, username: Option<string>, firstName: Option<string>,
    lastName: Option<string>, role: Option<string>, isActive: Option<Option<bool>>)

  datatype InsertTicketTemplate = InsertTicketTemplate(
    name: string, description: Option<string>, category: string,
    requiredFields: Option<Option<seq<string>>>, estimatedTime: Option<int>,
    priority: Option<string>, isActive: Option<Option<bool>>)

  datatype InsertTicket = InsertTicket(
    templateId: Option<int>, title: string, description: Option<string>, category: string,
    priority: Option<string>, status: Option<string>, requesterId: Option<int>,
    assigneeId: Option<int>, requestData: Option<Option<map<string, string>>>,
    response: Option<string>, estimatedTime: Option<int>, actualTime: Option<int>,
    dueDate: Option<int>, completedAt: Option<int>)

  datatype InsertTicketComment = InsertTicketComment(
    ticketId: Option<int>, userId: Option<int>, comment: string, isInternal: Option<Option<bool>>)

  datatype InsertTelegramMessage = InsertTelegramMessage(
    telegramId: string, messageId: Option<string>, ticketId: Option<int>,
    messageType: string, content: Option<string>)

  /** The value stored for a column with a default: the given one, or the default when left out. */
  function OrDefault<T>(given: Option<T>, default: T): (stored: T)
    ensures given == None ==> stored == default
    ensures given.Some? ==> stored == given.value
  {
    match given
    case None => default
    case Some(v) => v
  }

  /** The row the database stores for a new telegram user. */
  function NewTelegramUser(ins: InsertTelegramUser, id: int, now: int): (u: TelegramUser)
    ensures u.id == id && u.createdAt == now && u.telegramId == ins.telegramId
    ensures ins.role == None ==> u.role == "requester"
    ensures ins.isActive == None ==> u.isActive == Some(true)
  {
    TelegramUser(id, ins.telegramId, ins.username, ins.firstName, ins.lastName,
                 OrDefault(ins.role, "requester"), OrDefault(ins.isActive, Some(true)), now)
  }

  /** The row the database stores for a new template. */
  function NewTicketTemplate(ins: InsertTicketTemplate, id: int, now: int): (t: TicketTemplate)
    ensures t.id == id && t.createdAt == now && t.name == ins.name && t.category == ins.category
    ensures ins.priority == None ==> t.priority == "medium"
    ensures ins.isActive == None ==> t.isActive == Some(true)
    ensures ins.requiredFields == None ==> t.requiredFields == Some([])
  {
    TicketTemplate(id, ins.name, ins.description, ins.category,
                   OrDefault(ins.requiredFields, Some([])), ins.estimatedTime,
                   OrDefault(ins.priority, "medium"), OrDefault(ins.isActive, Some(true)), now)
  }

  /** The row the database stores for a new ticket; both timestamps are the insertion time. */
  function NewTicket(ins: InsertTicket, id: int, now: int): (t: Ticket)
    ensures t.id == id && t.createdAt == now && t.updatedAt == now
    ensures t.title == ins.title && t.category == ins.category && t.requesterId == ins.requesterId
    ensures ins.status == None ==> t.status == "pending"
    ensures ins.priority == None ==> t.priority == "medium"
    ensures ins.requestData == None ==> t.requestData == Some(map[])
  {
    Ticket(id, ins.templateId, ins.title, ins.description, ins.category,
           OrDefault(ins.priority, "medium"), OrDefault(ins.status, "pending"),
           ins.requesterId, ins.assigneeId, OrDefault(ins.requestData, Some(map[])),
           ins.response, ins.estimatedTime, ins.actualTime, ins.dueDate, ins.completedAt, now, now)
  }

  /** The row the database stores for a new comment. */
  function NewTicketComment(ins: InsertTicketComment, id: int, now: int): (c: TicketComment)
    ensures c.id == id && c.createdAt == now && c.ticketId == ins.ticketId && c.comment == ins.comment
    ensures ins.isInternal == None ==> c.isInternal == Some(false)
  {
    TicketComment(id, ins.ticketId, ins.userId, ins.comment, OrDefault(ins.isInternal, Some(false)), now)
  }

  function NewTelegramMessage(ins: InsertTelegramMessage, id: int, now: int): (m: TelegramMessage)
    ensures m.id == id && m.createdAt == now && m.telegramId == ins.telegramId
    ensures m.ticketId == ins.ticketId && m.messageType == ins.messageType && m.content == ins.content
  {
    TelegramMessage(id, ins.telegramId, ins.messageId, ins.ticketId, ins.messageType, ins.content, now)
  }
}
