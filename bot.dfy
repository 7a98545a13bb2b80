/**
 * `FinanceTelegramBot` of server/telegram-bot.ts: the per-user conversation sessions,
 * the callback and message handlers that drive them, the finance-team fan-out and the
 * emoji lookups. The store is the `DatabaseStorage` model; Telegram is a log of the
 * notices the bot sends, and a set of reachable Telegram ids decides which sends of
 * the fan-out succeed.
 */
module Bot {
  import opened Wrappers
  import opened JsText
  import opened Schema
  import opened Sorting
  import opened Storage

  /** The `data` of a session, by its `step`. */
  datatype Session =
    | CollectingInfo(templateId: int, template: TicketTemplate, responses: map<string, string>)
    | CompletingTicket(ticketId: int)

  /** What the bot sends, and to whom: a chat id, or a user's Telegram id. */
  datatype Notice =
    | TemplateNotFound(chat: int)
    | AskTitle(chat: int, templateName: string)
    | AskDescription(chat: int)
    | Submitted(chat: int, ticketId: int)
    | NewRequest(to: string, ticketId: int)
    | TicketNotFound(chat: int)
    | NotAuthorized(chat: int)
    | AcceptedByYou(chat: int, ticketId: int)
    | RequestAccepted(to: string, ticketId: int)
    | Details(chat: int, ticketId: int, comments: seq<TicketComment>)
    | AskCompletion(chat: int, ticketId: int)
    | RequestCompleted(to: string, ticketId: int, response: string)

  const FinanceTeam := "finance_team"

  // ---------------------------------------------------------------------------
  // Callback data

  /** The template id of `template_<id>` callback data: `parseInt` of what follows the prefix. */
  function TemplateIdOf(data: string): Option<int>
    requires "template_" <= data
  {
    ParseInt(data[|"template_"|..])
  }

  /** The buttons of the template menu carry `template_<id>`, which reads back as that id. */
  lemma TemplateCallbackRoundTrip(id: int)
    ensures "template_" <= "template_" + IntToString(id)
    ensures TemplateIdOf("template_" + IntToString(id)) == Some(id)
  {
    var data := "template_" + IntToString(id);
    assert data[|"template_"|..] == IntToString(id);
    ParseIntOfIntToString(id);
  }

  datatype ActionRequest = ActionRequest(action: string, id: Option<int>)

  /**
   * The action and ticket id of `ticket_<action>_<id>` callback data: the text after the
   * prefix is split on `_`; a missing second part is `undefined`, which `parseInt` reads
   * as `NaN` (None).
   */
  function TicketCallback(data: string): ActionRequest
    requires "ticket_" <= data
  {
    var parts := Split(data[|"ticket_"|..], '_');
    ActionRequest(parts[0], ParseInt(if |parts| > 1 then parts[1] else ""))
  }

  /** The buttons the bot sends carry `ticket_<action>_<id>`, which reads back as that action and id. */
  lemma TicketCallbackRoundTrip(action: string, id: int)
    requires '_' !in action
    ensures "ticket_" <= "ticket_" + action + "_" + IntToString(id)
    ensures TicketCallback("ticket_" + action + "_" + IntToString(id)) == ActionRequest(action, Some(id))
  {
    var digits := IntToString(id);
    var data := "ticket_" + action + "_" + digits;
    assert data[|"ticket_"|..] == action + ['_'] + digits;
    IntToStringOnlyDigitsAndMinus(id, '_');
    SplitWithoutSeparator(digits, '_');
    SplitAtFirstSeparator(action, digits, '_');
    var parts := Split(data[|"ticket_"|..], '_');
    assert parts == [action, digits];
    ParseIntOfIntToString(id);
  }

  /** A callback whose id part does not start with a number yields no id. */
  lemma TicketCallbackWithoutId(action: string)
    requires '_' !in action
    ensures "ticket_" <= "ticket_" + action
    ensures TicketCallback("ticket_" + action) == ActionRequest(action, None)
  {
    var data := "ticket_" + action;
    assert data[|"ticket_"|..] == action;
    SplitWithoutSeparator(action, '_');
  }

  /** `ticket.requesterId?.toString() || ''`: the key the bot looks the requester up by. */
  function RequesterKey(requesterId: Option<int>): string {
    if requesterId.Some? then IntToString(requesterId.value) else ""
  }

  /** `!responses[key]`: the answer is missing or empty. */
  predicate Missing(responses: map<string, string>, key: string) {
    key !in responses || responses[key] == ""
  }

  predicate IsFinanceMember(user: Option<TelegramUser>) {
    user.Some? && user.value.role == FinanceTeam
  }

  /** The insert `handleFormInput` makes from the template and the collected answers. */
  function RequestTicket(template: TicketTemplate, responses: map<string, string>, requesterId: int): (ins: InsertTicket)
    requires "title" in responses && "description" in responses
    ensures ins.title == responses["title"] && ins.description == Some(responses["description"])
    ensures ins.category == template.category && ins.priority == Some(template.priority)
    ensures ins.templateId == Some(template.id) && ins.requesterId == Some(requesterId)
    ensures ins.requestData == Some(Some(responses)) && ins.status == None && ins.assigneeId == None
  {
    InsertTicket(Some(template.id), responses["title"], Some(responses["description"]), template.category,
                 Some(template.priority), None, Some(requesterId), None, Some(Some(responses)),
                 None, None, None, None, None)
  }

  /** The message log entry of a submitted request. */
  function RequestLog(telegramId: string, ticketId: int, title: string): InsertTelegramMessage {
    InsertTelegramMessage(telegramId, None, Some(ticketId), "request", Some("New ticket created: " + title))
  }

  /** The update `accept` applies. */
  function AcceptUpdate(assigneeId: int): TicketUpdate {
    NoChanges.(status := Some("in_progress"), assigneeId := Some(Some(assigneeId)))
  }

  /** The update `completeTicket` applies. */
  function CompleteUpdate(response: string): TicketUpdate {
    NoChanges.(status := Some("completed"), response := Some(Some(response)))
  }

  /** Accepting takes the ticket in progress and assigns it to the accepting user. */
  lemma AcceptAssigns(t: Ticket, userId: int, now: int)
    ensures ApplyTicketUpdate(t, AcceptUpdate(userId), now).status == "in_progress"
    ensures ApplyTicketUpdate(t, AcceptUpdate(userId), now).assigneeId == Some(userId)
    ensures ApplyTicketUpdate(t, AcceptUpdate(userId), now).completedAt == t.completedAt
    ensures ApplyTicketUpdate(t, AcceptUpdate(userId), now).response == t.response
  {
  }

  /** Completing stores the response and stamps the completion time. */
  lemma CompleteStamps(t: Ticket, response: string, now: int)
    ensures ApplyTicketUpdate(t, CompleteUpdate(response), now).status == "completed"
    ensures ApplyTicketUpdate(t, CompleteUpdate(response), now).response == Some(response)
    ensures ApplyTicketUpdate(t, CompleteUpdate(response), now).completedAt == Some(now)
    ensures ApplyTicketUpdate(t, CompleteUpdate(response), now).assigneeId == t.assigneeId
  {
  }

  /** The notices the fan-out delivers: one per reachable user, in list order. */
  function Delivered(users: seq<TelegramUser>, reachable: set<string>, ticketId: int): seq<Notice> {
    if users == [] then []
    else
      var last := users[|users| - 1];
      Delivered(users[..|users| - 1], reachable, ticketId)
      + (if last.telegramId in reachable then [NewRequest(last.telegramId, ticketId)] else [])
  }

  /** One more user: the fan-out grows by that user's message if the user is reachable. */
  lemma DeliveredStep(users: seq<TelegramUser>, reachable: set<string>, ticketId: int, i: nat)
    requires i < |users|
    ensures Delivered(users[..i + 1], reachable, ticketId)
      == Delivered(users[..i], reachable, ticketId)
         + (if users[i].telegramId in reachable then [NewRequest(users[i].telegramId, ticketId)] else [])
  {
    assert users[..i + 1][..i] == users[..i];
  }

  /**
   * A failed send does not stop the fan-out: every reachable user of the list gets the
   * notice, and nobody else does.
   */
  lemma {:induction false} DeliveredToEveryReachable(users: seq<TelegramUser>, reachable: set<string>, ticketId: int, n: Notice)
    ensures n in Delivered(users, reachable, ticketId) <==>
      exists u :: u in users && u.telegramId in reachable && n == NewRequest(u.telegramId, ticketId)
  {
    if users != [] {
      var front := users[..|users| - 1];
      var last := users[|users| - 1];
      DeliveredToEveryReachable(front, reachable, ticketId, n);
      assert users == front + [last];
      if n in Delivered(users, reachable, ticketId) && n !in Delivered(front, reachable, ticketId) {
        assert last in users;
      }
      if exists u :: u in users && u.telegramId in reachable && n == NewRequest(u.telegramId, ticketId) {
        var u :| u in users && u.telegramId in reachable && n == NewRequest(u.telegramId, ticketId);
        if u != last {
          assert u in front;
        }
      }
    }
  }

  // ---------------------------------------------------------------------------
  // Emoji lookups: a fixed table with a default for every other key.

  function CategoryEmoji(category: string): (emoji: string)
    ensures emoji == "\U{1F4CB}" <==> category !in {"payment", "invoice", "budget", "expense"}
    ensures category == "payment" ==> emoji == "\U{1F4B3}"
    ensures category == "invoice" ==> emoji == "\U{1F4C4}"
    ensures category == "budget" ==> emoji == "\U{1F4B0}"
    ensures category == "expense" ==> emoji == "\U{1F4CA}"
  {
    var emojis := map["payment" := "\U{1F4B3}", "invoice" := "\U{1F4C4}", "budget" := "\U{1F4B0}",
                      "expense" := "\U{1F4CA}", "other" := "\U{1F4CB}"];
    if category in emojis then emojis[category] else "\U{1F4CB}"
  }

  function StatusEmoji(status: string): (emoji: string)
    ensures emoji == "\U{23F3}" <==> status !in {"in_progress", "completed", "cancelled"}
    ensures status == "in_progress" ==> emoji == "\U{1F504}"
    ensures status == "completed" ==> emoji == "\U{2705}"
    ensures status == "cancelled" ==> emoji == "\U{274C}"
  {
    var emojis := map["pending" := "\U{23F3}", "in_progress" := "\U{1F504}", "completed" := "\U{2705}",
                      "cancelled" := "\U{274C}"];
    if status in emojis then emojis[status] else "\U{23F3}"
  }

  function PriorityEmoji(priority: string): (emoji: string)
    ensures emoji == "\U{1F7E1}" <==> priority !in {"low", "high", "urgent"}
    ensures priority == "low" ==> emoji == "\U{1F7E2}"
    ensures priority == "high" ==> emoji == "\U{1F7E0}"
    ensures priority == "urgent" ==> emoji == "\U{1F534}"
  {
    var emojis := map["low" := "\U{1F7E2}", "medium" := "\U{1F7E1}", "high" := "\U{1F7E0}",
                      "urgent" := "\U{1F534}"];
    if priority in emojis then emojis[priority] else "\U{1F7E1}"
  }

  /** The requester is told of the acceptance when the lookup found them. */
  function AcceptedNotice(requester: Option<TelegramUser>, ticketId: int): seq<Notice> {
    if requester.Some? then [RequestAccepted(requester.value.telegramId, ticketId)] else []
  }

  /** The requester is told of the completion when the lookup found them. */
  function CompletedNotice(requester: Option<TelegramUser>, ticketId: int, response: string): seq<Notice> {
    if requester.Some? then [RequestCompleted(requester.value.telegramId, ticketId, response)] else []
  }

  /** No callback data is both a template choice and a ticket action. */
  lemma CallbackPrefixesDisjoint(data: string)
    ensures !("template_" <= data && "ticket_" <= data)
  {
    assert "template_" <= data ==> data[1] == 'e';
    assert "ticket_" <= data ==> data[1] == 'i';
  }

  // ---------------------------------------------------------------------------
  // The bot

  class FinanceTelegramBot {
    var userSessions: map<string, Session>
    var outbox: seq<Notice>
    const storage: DatabaseStorage

    ghost predicate Valid()
      reads this, storage
    {
      storage.Valid()
    }

    constructor (storage: DatabaseStorage)
      requires storage.Valid()
      ensures Valid() && this.storage == storage
      ensures userSessions == map[] && outbox == []
    {
      this.storage := storage;
      userSessions := map[];
      outbox := [];
    }

    /** `notifyFinanceTeam`: one attempt per active finance-team user; a failed send is logged and skipped. */
    method NotifyFinanceTeam(ticket: Ticket, reachable: set<string>)
      modifies this
      ensures outbox == old(outbox) + Delivered(storage.GetTelegramUsersByRole(FinanceTeam), reachable, ticket.id)
      ensures userSessions == old(userSessions)
    {
      var financeUsers := storage.GetTelegramUsersByRole(FinanceTeam);
      var i := 0;
      while i < |financeUsers|
        invariant 0 <= i <= |financeUsers|
        invariant outbox == old(outbox) + Delivered(financeUsers[..i], reachable, ticket.id)
        invariant userSessions == old(userSessions)
      {
        var user := financeUsers[i];
        DeliveredStep(financeUsers, reachable, ticket.id, i);
        if user.telegramId in reachable {
          outbox := outbox + [NewRequest(user.telegramId, ticket.id)];
        }
        i := i + 1;
      }
      assert financeUsers[..i] == financeUsers;
    }

    /**
     * The `callback_query` handler. Missing chat or data does nothing. `template_<id>`
     * starts (or restarts) the user's form; an id that is not a number makes the query
     * throw, which ends the handler with nothing changed. `ticket_...` is a ticket action.
     */
    method OnCallback(chat: Option<int>, telegramId: string, data: Option<string>, now: int)
      requires Valid()
      modifies this, storage
      ensures Valid()
      ensures chat.None? || chat == Some(0) || data.None? || data == Some("") ==> unchanged(this) && unchanged(storage)
      ensures chat.Some? && chat != Some(0) && data.Some? && "template_" <= data.value ==>
        var id := TemplateIdOf(data.value);
        && unchanged(storage)
        && (id.None? ==> unchanged(this))
        && (id.Some? && old(storage.GetTicketTemplate(id.value)).None? ==>
              userSessions == old(userSessions) && outbox == old(outbox) + [TemplateNotFound(chat.value)])
        && (id.Some? && old(storage.GetTicketTemplate(id.value)).Some? ==>
              var template := old(storage.GetTicketTemplate(id.value)).value;
              && userSessions == old(userSessions)[telegramId := CollectingInfo(id.value, template, map[])]
              && outbox == old(outbox) + [AskTitle(chat.value, template.name)])
      ensures chat.Some? && chat != Some(0) && data.Some? && "ticket_" <= data.value ==>
        TicketActionDone(chat.value, telegramId, data.value, now)
      ensures data.Some? && !("template_" <= data.value) && !("ticket_" <= data.value) ==> unchanged(this) && unchanged(storage)
    {
      if chat.None? || chat == Some(0) || data.None? || data == Some("") {
        return;
      }
      var d := data.value;
      CallbackPrefixesDisjoint(d);
      if "template_" <= d {
        SelectTemplate(chat.value, telegramId, d);
      }
      if "ticket_" <= d {
        HandleTicketAction(chat.value, telegramId, d, now);
      }
    }

    /** The `template_` branch of the callback handler. */
    method SelectTemplate(chat: int, telegramId: string, data: string)
      requires Valid() && "template_" <= data
      modifies this
      ensures var id := TemplateIdOf(data);
        && (id.None? ==> unchanged(this))
        && (id.Some? && storage.GetTicketTemplate(id.value).None? ==>
              userSessions == old(userSessions) && outbox == old(outbox) + [TemplateNotFound(chat)])
        && (id.Some? && storage.GetTicketTemplate(id.value).Some? ==>
              var template := storage.GetTicketTemplate(id.value).value;
              && userSessions == old(userSessions)[telegramId := CollectingInfo(id.value, template, map[])]
              && outbox == old(outbox) + [AskTitle(chat, template.name)])
    {
      var templateId := TemplateIdOf(data);
      if templateId.None? {
        return;
      }
      var template := storage.GetTicketTemplate(templateId.value);
      if template.None? {
        outbox := outbox + [TemplateNotFound(chat)];
        return;
      }
      userSessions := userSessions[telegramId := CollectingInfo(templateId.value, template.value, map[])];
      outbox := outbox + [AskTitle(chat, template.value.name)];
    }

    /**
     * The `message` handler: a text from a user whose session collects a request feeds
     * the form; no sender, no text, a command, no session or a `completing_ticket`
     * session leaves everything as it was.
     */
    method OnMessage(chat: int, telegramId: Option<string>, text: Option<string>, now: int, reachable: set<string>)
      requires Valid()
      modifies this, storage
      ensures Valid()
      ensures telegramId.None? || text.None? || text == Some("") || "/" <= text.value ==> unchanged(this) && unchanged(storage)
      ensures telegramId.Some? && (telegramId.value !in old(userSessions) || old(userSessions)[telegramId.value].CompletingTicket?) ==>
        unchanged(this) && unchanged(storage)
      ensures telegramId.Some? && text.Some? && text.value != "" && !("/" <= text.value)
              && telegramId.value in old(userSessions) && old(userSessions)[telegramId.value].CollectingInfo? ==>
        FormInputDone(chat, telegramId.value, text.value, now, reachable)
    {
      if telegramId.None? || text.None? || text == Some("") || "/" <= text.value {
        return;
      }
      var id := telegramId.value;
      if id !in userSessions {
        return;
      }
      if userSessions[id].CollectingInfo? {
        HandleFormInput(chat, id, text.value, now, reachable);
      }
    }

    /**
     * What `handleFormInput` leaves behind, between the state before the call and the
     * state after it, for a sender whose session collects a request.
     */
    twostate predicate FormInputDone(chat: int, telegramId: string, text: string, now: int, reachable: set<string>)
      requires telegramId in old(userSessions) && old(userSessions)[telegramId].CollectingInfo?
      reads this, storage
    {
      var s := old(userSessions)[telegramId];
      && (Missing(s.responses, "title") ==>
            && userSessions == old(userSessions)[telegramId := s.(responses := s.responses["title" := text])]
            && outbox == old(outbox) + [AskDescription(chat)]
            && unchanged(storage))
      && (!Missing(s.responses, "title") && !Missing(s.responses, "description") ==>
            unchanged(this) && unchanged(storage))
      && (!Missing(s.responses, "title") && Missing(s.responses, "description")
          && old(storage.GetTelegramUser(telegramId)).None? ==>
            && userSessions == old(userSessions)[telegramId := s.(responses := s.responses["description" := text])]
            && outbox == old(outbox)
            && unchanged(storage))
      && (!Missing(s.responses, "title") && Missing(s.responses, "description")
          && old(storage.GetTelegramUser(telegramId)).Some? ==>
            var responses := s.responses["description" := text];
            RequestSubmitted(chat, telegramId, s.template, responses,
                             old(storage.GetTelegramUser(telegramId)).value.id, now, reachable))
    }

    /**
     * What the end of the form leaves behind: one new ticket and its log line, the same
     * users, templates and comments, the two counters used, the finance team and the
     * requester told, and the session gone.
     */
    twostate predicate RequestSubmitted(chat: int, telegramId: string, template: TicketTemplate,
                                        responses: map<string, string>, requesterId: int, now: int, reachable: set<string>)
      requires "title" in responses && "description" in responses
      reads this, storage
    {
      var ticket := NewTicket(RequestTicket(template, responses, requesterId), old(storage.nextTicketId), now);
      && userSessions == old(userSessions) - {telegramId}
      && storage.tickets == old(storage.tickets) + [ticket]
      && storage.messages == old(storage.messages)
           + [NewTelegramMessage(RequestLog(telegramId, ticket.id, responses["title"]), old(storage.nextMessageId), now)]
      && storage.telegramUsers == old(storage.telegramUsers)
      && storage.templates == old(storage.templates) && storage.comments == old(storage.comments)
      && storage.Serials() == (old(storage.nextUserId), old(storage.nextTemplateId), old(storage.nextTicketId) + 1,
                               old(storage.nextCommentId), old(storage.nextMessageId) + 1)
      && outbox == old(outbox) + Delivered(old(storage.GetTelegramUsersByRole(FinanceTeam)), reachable, ticket.id)
                               + [Submitted(chat, ticket.id)]
    }

    /**
     * `handleFormInput`: the first text is the title, the second the description. With
     * both, a ticket is created for the registered requester, logged, announced to the
     * finance team, and the session ends; an unregistered requester keeps the filled
     * session and nothing is created. Once both answers are in, further texts do nothing.
     */
    method HandleFormInput(chat: int, telegramId: string, text: string, now: int, reachable: set<string>)
      requires Valid()
      requires telegramId in userSessions && userSessions[telegramId].CollectingInfo?
      modifies this, storage
      ensures Valid()
      ensures FormInputDone(chat, telegramId, text, now, reachable)
    {
      var session := userSessions[telegramId];
      var responses := session.responses;
      if Missing(responses, "title") {
        responses := responses["title" := text];
        userSessions := userSessions[telegramId := session.(responses := responses)];
        outbox := outbox + [AskDescription(chat)];
      } else if Missing(responses, "description") {
        responses := responses["description" := text];
        userSessions := userSessions[telegramId := session.(responses := responses)];
        var user := storage.GetTelegramUser(telegramId);
        if user.None? {
          return;
        }
        SubmitRequest(chat, telegramId, session.template, responses, user.value.id, now, reachable);
      }
    }

    /** The end of the form: create the ticket, log it, tell the finance team and the requester, end the session. */
    method SubmitRequest(chat: int, telegramId: string, template: TicketTemplate, responses: map<string, string>,
                         requesterId: int, now: int, reachable: set<string>)
      requires Valid() && "title" in responses && "description" in responses
      modifies this, storage
      ensures Valid()
      ensures RequestSubmitted(chat, telegramId, template, responses, requesterId, now, reachable)
    {
      var ticket := storage.CreateTicket(RequestTicket(template, responses, requesterId), now);
      var _ := storage.CreateTelegramMessage(RequestLog(telegramId, ticket.id, responses["title"]), now);
      NotifyFinanceTeam(ticket, reachable);
      outbox := outbox + [Submitted(chat, ticket.id)];
      userSessions := userSessions - {telegramId};
    }

    /**
     * What `handleTicketAction` leaves behind, between the state before the call and the
     * state after it.
     */
    twostate predicate TicketActionDone(chat: int, telegramId: string, data: string, now: int)
      requires "ticket_" <= data
      reads this, storage
    {
      var action, id := TicketCallback(data).action, TicketCallback(data).id;
      && (id.None? ==> unchanged(this) && unchanged(storage))
      && (id.Some? && old(storage.GetTicket(id.value)).None? ==>
            && userSessions == old(userSessions) && outbox == old(outbox) + [TicketNotFound(chat)]
            && unchanged(storage))
      && (id.Some? && old(storage.GetTicket(id.value)).Some? && !IsFinanceMember(old(storage.GetTelegramUser(telegramId))) ==>
            && userSessions == old(userSessions) && outbox == old(outbox) + [NotAuthorized(chat)]
            && unchanged(storage))
      && (id.Some? && old(storage.GetTicket(id.value)).Some? && IsFinanceMember(old(storage.GetTelegramUser(telegramId))) ==>
            var user := old(storage.GetTelegramUser(telegramId)).value;
            var ticket := old(storage.GetTicket(id.value)).value;
            ActionRan(chat, telegramId, action, id.value, ticket.requesterId, user.id, now))
    }

    /**
     * `handleTicketAction`: a missing ticket is reported before the caller's role is
     * checked; only a registered finance-team member goes on. `accept` takes the ticket
     * in progress and assigns it to that member, `view` only reads, `complete` makes the
     * member's next answer the completion response, any other action does nothing.
     */
    method HandleTicketAction(chat: int, telegramId: string, data: string, now: int)
      requires Valid() && "ticket_" <= data
      modifies this, storage
      ensures Valid()
      ensures TicketActionDone(chat, telegramId, data, now)
    {
      var request := TicketCallback(data);
      var action, ticketId := request.action, request.id;
      if ticketId.None? {
        return;
      }
      var id := ticketId.value;
      var ticket := storage.GetTicket(id);
      if ticket.None? {
        outbox := outbox + [TicketNotFound(chat)];
        return;
      }
      var user := storage.GetTelegramUser(telegramId);
      if !IsFinanceMember(user) {
        outbox := outbox + [NotAuthorized(chat)];
        return;
      }
      RunTicketAction(chat, telegramId, action, id, ticket.value.requesterId, user.value.id, now);
    }

    /**
     * What a finance member's action on an existing ticket leaves behind. `accept` changes
     * only that ticket's row and tells the member and the requester; `view` sends the
     * ticket's comments, internal ones included, oldest first; `complete` waits for the
     * response; any other action does nothing.
     */
    twostate predicate ActionRan(chat: int, telegramId: string, action: string, id: int,
                                 requesterId: Option<int>, assigneeId: int, now: int)
      reads this, storage
    {
      && (action == "accept" ==>
            && userSessions == old(userSessions)
            && |storage.tickets| == |old(storage.tickets)|
            && (forall i :: 0 <= i < |storage.tickets| ==>
                  storage.tickets[i] == if old(storage.tickets)[i].id == id
                                        then ApplyTicketUpdate(old(storage.tickets)[i], AcceptUpdate(assigneeId), now)
                                        else old(storage.tickets)[i])
            && storage.telegramUsers == old(storage.telegramUsers) && storage.comments == old(storage.comments)
            && storage.templates == old(storage.templates) && storage.messages == old(storage.messages)
            && storage.Serials() == old(storage.Serials())
            && outbox == old(outbox) + [AcceptedByYou(chat, id)]
                         + AcceptedNotice(old(storage.GetTelegramUser(RequesterKey(requesterId))), id))
      && (action == "view" ==>
            && unchanged(storage) && userSessions == old(userSessions)
            && |outbox| == |old(outbox)| + 1 && outbox[..|old(outbox)|] == old(outbox)
            && DetailsOf(outbox[|old(outbox)|], chat, id))
      && (action == "complete" ==>
            && unchanged(storage)
            && userSessions == old(userSessions)[telegramId := CompletingTicket(id)]
            && outbox == old(outbox) + [AskCompletion(chat, id)])
      && (action !in {"accept", "view", "complete"} ==> unchanged(this) && unchanged(storage))
    }

    /** `shown` is the details notice of ticket `id` for `chat`: every comment of the ticket, each once, oldest first. */
    ghost predicate DetailsOf(shown: Notice, chat: int, id: int)
      reads storage
    {
      && shown.Details? && shown.chat == chat && shown.ticketId == id
      && (forall c :: c in shown.comments <==> c in storage.comments && ColumnIs(c.ticketId, id))
      && SortedBy(shown.comments, CommentNotLater)
      && multiset(shown.comments) == multiset(storage.CommentsOf(id, true))
    }

    /** The action a finance member asked for on an existing ticket; an unknown action does nothing. */
    method RunTicketAction(chat: int, telegramId: string, action: string, id: int,
                           requesterId: Option<int>, assigneeId: int, now: int)
      requires Valid()
      modifies this, storage
      ensures Valid()
      ensures ActionRan(chat, telegramId, action, id, requesterId, assigneeId, now)
    {
      if action == "accept" {
        AcceptTicket(chat, id, requesterId, assigneeId, now);
      } else if action == "view" {
        ViewTicket(chat, id);
      } else if action == "complete" {
        userSessions := userSessions[telegramId := CompletingTicket(id)];
        outbox := outbox + [AskCompletion(chat, id)];
      }
    }

    /** The `accept` action: the ticket goes in progress under `assigneeId`, and the requester is told. */
    method AcceptTicket(chat: int, id: int, requesterId: Option<int>, assigneeId: int, now: int)
      requires Valid()
      modifies this, storage
      ensures Valid()
      ensures userSessions == old(userSessions)
      ensures |storage.tickets| == |old(storage.tickets)|
      ensures forall i :: 0 <= i < |storage.tickets| ==>
        storage.tickets[i] == if old(storage.tickets)[i].id == id
                              then ApplyTicketUpdate(old(storage.tickets)[i], AcceptUpdate(assigneeId), now)
                              else old(storage.tickets)[i]
      ensures storage.telegramUsers == old(storage.telegramUsers) && storage.comments == old(storage.comments)
      ensures storage.templates == old(storage.templates) && storage.messages == old(storage.messages)
      ensures storage.Serials() == old(storage.Serials())
      ensures outbox == old(outbox) + [AcceptedByYou(chat, id)] + AcceptedNotice(old(storage.GetTelegramUser(RequesterKey(requesterId))), id)
    {
      var _ := storage.UpdateTicket(id, AcceptUpdate(assigneeId), now);
      outbox := outbox + [AcceptedByYou(chat, id)];
      var requester := storage.GetTelegramUser(RequesterKey(requesterId));
      if requester.Some? {
        outbox := outbox + [RequestAccepted(requester.value.telegramId, id)];
      }
    }

    /** The `view` action: the ticket's comments, internal ones included, are sent; nothing changes. */
    method ViewTicket(chat: int, id: int)
      modifies this
      ensures userSessions == old(userSessions)
      ensures |outbox| == |old(outbox)| + 1 && outbox[..|old(outbox)|] == old(outbox)
      ensures DetailsOf(outbox[|outbox| - 1], chat, id)
    {
      var comments := storage.GetTicketComments(id, true);
      outbox := outbox + [Details(chat, id, comments)];
    }

    /**
     * `completeTicket`: with a `completing_ticket` session, the ticket is completed with
     * the response and the session ends; if no ticket has that id the session stays.
     * Without such a session nothing happens.
     */
    method CompleteTicket(telegramId: string, response: string, now: int) returns (ticket: Option<Ticket>)
      requires Valid()
      modifies this, storage
      ensures Valid()
      ensures telegramId !in old(userSessions) || !old(userSessions)[telegramId].CompletingTicket? ==>
        ticket == None && unchanged(this) && unchanged(storage)
      ensures telegramId in old(userSessions) && old(userSessions)[telegramId].CompletingTicket? ==>
        var id := old(userSessions)[telegramId].ticketId;
        && |storage.tickets| == |old(storage.tickets)|
        && (forall i :: 0 <= i < |storage.tickets| ==>
              storage.tickets[i] == if old(storage.tickets)[i].id == id
                                    then ApplyTicketUpdate(old(storage.tickets)[i], CompleteUpdate(response), now)
                                    else old(storage.tickets)[i])
        && storage.telegramUsers == old(storage.telegramUsers) && storage.templates == old(storage.templates)
        && storage.comments == old(storage.comments) && storage.messages == old(storage.messages)
        && storage.Serials() == old(storage.Serials())
        && (ticket.None? <==> forall i :: 0 <= i < |old(storage.tickets)| ==> old(storage.tickets)[i].id != id)
        && (ticket.None? ==> userSessions == old(userSessions) && outbox == old(outbox))
        && (ticket.Some? ==>
              && (exists i :: 0 <= i < |old(storage.tickets)| && old(storage.tickets)[i].id == id
                              && ticket.value == storage.tickets[i])
              && ticket.value.id == id && ticket.value.status == "completed"
              && ticket.value.response == Some(response) && ticket.value.completedAt == Some(now)
              && userSessions == old(userSessions) - {telegramId}
              && outbox == old(outbox)
                 + CompletedNotice(old(storage.GetTelegramUser(RequesterKey(ticket.value.requesterId))), id, response))
    {
      if telegramId !in userSessions || !userSessions[telegramId].CompletingTicket? {
        return None;
      }
      var id := userSessions[telegramId].ticketId;
      ticket := storage.UpdateTicket(id, CompleteUpdate(response), now);
      if ticket.None? {
        return;
      }
      CompleteStamps(ticket.value, response, now);
      var requester := storage.GetTelegramUser(RequesterKey(ticket.value.requesterId));
      if requester.Some? {
        outbox := outbox + [RequestCompleted(requester.value.telegramId, id, response)];
      }
      userSessions := userSessions - {telegramId};
    }
  }
}
