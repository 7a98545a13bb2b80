/**
 * `DatabaseStorage` of server/storage.ts over in-memory tables. Each PostgreSQL table is
 * a sequence of rows in insertion order; a `serial` id comes from a counter starting at
 * 1; the current time is a parameter. A `WHERE` clause keeps the rows in table order,
 * and an `ORDER BY` is the stable sort of the Sorting module.
 */
module Storage {
  import opened Wrappers
  import opened Sorting
  import opened Schema

  // ---------------------------------------------------------------------------
  // Row predicates and orders

  /** `ORDER BY created_at DESC`. */
  predicate NewerOrSame(a: Ticket, b: Ticket) {
    a.createdAt >= b.createdAt
  }

  /** `ORDER BY created_at` for comments. */
  predicate CommentNotLater(a: TicketComment, b: TicketComment) {
    a.createdAt <= b.createdAt
  }

  /** `ORDER BY created_at DESC` for logged messages. */
  predicate MessageNotOlder(a: TelegramMessage, b: TelegramMessage) {
    a.createdAt >= b.createdAt
  }

  /** `ORDER BY name`. */
  predicate NameNotAfter(a: TicketTemplate, b: TicketTemplate) {
    TextLe(a.name, b.name)
  }

  lemma OrdersAreTotalPreorders()
    ensures IsTotalPreorder(NewerOrSame)
    ensures IsTotalPreorder(CommentNotLater)
    ensures IsTotalPreorder(NameNotAfter)
    ensures IsTotalPreorder(MessageNotOlder)
  {
    forall a: TicketTemplate, b: TicketTemplate ensures NameNotAfter(a, b) || NameNotAfter(b, a) {
      TextLeTotal(a.name, b.name);
    }
    forall a: TicketTemplate, b: TicketTemplate, c: TicketTemplate | NameNotAfter(a, b) && NameNotAfter(b, c)
      ensures NameNotAfter(a, c)
    {
      TextLeTransitive(a.name, b.name, c.name);
    }
  }

  /** An `eq` on a nullable integer column: NULL never equals a value. */
  predicate ColumnIs(column: Option<int>, value: int) {
    column == Some(value)
  }

  /** The rows a `WHERE` keeps, in table order. */
  function Where<T(!new)>(rows: seq<T>, keep: T -> bool): (r: seq<T>)
    ensures |r| <= |rows|
    ensures forall x :: x in r <==> x in rows && keep(x)
  {
    if rows == [] then []
    else
      var front := Where(rows[..|rows| - 1], keep);
      var last := rows[|rows| - 1];
      assert rows == rows[..|rows| - 1] + [last];
      if keep(last) then front + [last] else front
  }

  // ---------------------------------------------------------------------------
  // getTickets filters

  datatype TicketFilters = TicketFilters(
    status: Option<string>, priority: Option<string>, category: Option<string>,
    assigneeId: Option<int>, requesterId: Option<int>)

  /** One pushed `eq` condition. */
  datatype Condition =
    | StatusIs(status: string)
    | PriorityIs(priority: string)
    | CategoryIs(category: string)
    | AssigneeIs(assigneeId: int)
    | RequesterIs(requesterId: int)

  predicate Holds(c: Condition, t: Ticket) {
    match c
    case StatusIs(s) => t.status == s
    case PriorityIs(p) => t.priority == p
    case CategoryIs(k) => t.category == k
    case AssigneeIs(a) => ColumnIs(t.assigneeId, a)
    case RequesterIs(r) => ColumnIs(t.requesterId, r)
  }

  predicate AllHold(conditions: seq<Condition>, t: Ticket) {
    forall i :: 0 <= i < |conditions| ==> Holds(conditions[i], t)
  }

  /** JavaScript truthiness of an optional text and an optional number. */
  predicate TruthyText(o: Option<string>) {
    o.Some? && o.value != ""
  }

  predicate TruthyNumber(o: Option<int>) {
    o.Some? && o.value != 0
  }

  predicate AnyTruthy(f: TicketFilters) {
    TruthyText(f.status) || TruthyText(f.priority) || TruthyText(f.category)
    || TruthyNumber(f.assigneeId) || TruthyNumber(f.requesterId)
  }

  /** The reference reading of the filters: every truthy field must match, the others are ignored. */
  predicate Admits(filters: Option<TicketFilters>, t: Ticket) {
    filters.Some? ==>
      var f := filters.value;
      && (TruthyText(f.status) ==> t.status == f.status.value)
      && (TruthyText(f.priority) ==> t.priority == f.priority.value)
      && (TruthyText(f.category) ==> t.category == f.category.value)
      && (TruthyNumber(f.assigneeId) ==> ColumnIs(t.assigneeId, f.assigneeId.value))
      && (TruthyNumber(f.requesterId) ==> ColumnIs(t.requesterId, f.requesterId.value))
  }

  function Optional(present: bool, c: Condition): seq<Condition> {
    if present then [c] else []
  }

  /** The conditions `getTickets` pushes, in push order. */
  function ConditionsOf(filters: Option<TicketFilters>): seq<Condition> {
    if filters.None? then []
    else
      var f := filters.value;
      Optional(TruthyText(f.status), StatusIs(f.status.GetOr("")))
      + Optional(TruthyText(f.priority), PriorityIs(f.priority.GetOr("")))
      + Optional(TruthyText(f.category), CategoryIs(f.category.GetOr("")))
      + Optional(TruthyNumber(f.assigneeId), AssigneeIs(f.assigneeId.GetOr(0)))
      + Optional(TruthyNumber(f.requesterId), RequesterIs(f.requesterId.GetOr(0)))
  }

  lemma AllHoldAppend(a: seq<Condition>, b: seq<Condition>, t: Ticket)
    ensures AllHold(a + b, t) <==> AllHold(a, t) && AllHold(b, t)
  {
    if AllHold(a, t) && AllHold(b, t) {
      forall i | 0 <= i < |a + b| ensures Holds((a + b)[i], t) {
        if i >= |a| { assert (a + b)[i] == b[i - |a|]; }
      }
    }
    if AllHold(a + b, t) {
      forall i | 0 <= i < |a| ensures Holds(a[i], t) {
        assert (a + b)[i] == a[i];
      }
      forall i | 0 <= i < |b| ensures Holds(b[i], t) {
        assert (a + b)[|a| + i] == b[i];
      }
    }
  }

  lemma AllHoldOptional(present: bool, c: Condition, t: Ticket)
    ensures AllHold(Optional(present, c), t) <==> (present ==> Holds(c, t))
  {
    if present {
      assert Optional(present, c)[0] == c;
    }
  }

  /** The pushed conditions hold exactly for the tickets the filters admit. */
  lemma ConditionsMeanFilters(filters: Option<TicketFilters>, t: Ticket)
    ensures AllHold(ConditionsOf(filters), t) <==> Admits(filters, t)
  {
    if filters.Some? {
      var f := filters.value;
      var s := Optional(TruthyText(f.status), StatusIs(f.status.GetOr("")));
      var p := Optional(TruthyText(f.priority), PriorityIs(f.priority.GetOr("")));
      var c := Optional(TruthyText(f.category), CategoryIs(f.category.GetOr("")));
      var a := Optional(TruthyNumber(f.assigneeId), AssigneeIs(f.assigneeId.GetOr(0)));
      var r := Optional(TruthyNumber(f.requesterId), RequesterIs(f.requesterId.GetOr(0)));
      AllHoldOptional(TruthyText(f.status), StatusIs(f.status.GetOr("")), t);
      AllHoldOptional(TruthyText(f.priority), PriorityIs(f.priority.GetOr("")), t);
      AllHoldOptional(TruthyText(f.category), CategoryIs(f.category.GetOr("")), t);
      AllHoldOptional(TruthyNumber(f.assigneeId), AssigneeIs(f.assigneeId.GetOr(0)), t);
      AllHoldOptional(TruthyNumber(f.requesterId), RequesterIs(f.requesterId.GetOr(0)), t);
      AllHoldAppend(s, p, t);
      AllHoldAppend(s + p, c, t);
      AllHoldAppend(s + p + c, a, t);
      AllHoldAppend(s + p + c + a, r, t);
    }
  }

  /** No condition is pushed exactly when no filter field is truthy. */
  lemma NoConditionsIffNothingTruthy(filters: Option<TicketFilters>)
    ensures ConditionsOf(filters) == [] <==> filters.None? || !AnyTruthy(filters.value)
  {
  }

  // ---------------------------------------------------------------------------
  // getTicketStats counters: a JavaScript object used as a counter, kept as its
  // (key, count) entries in first-insertion order.

  type Counts = seq<(string, nat)>

  /** `counts[key] || 0`. */
  function Lookup(counts: Counts, key: string): nat {
    if counts == [] then 0
    else if counts[0].0 == key then counts[0].1
    else Lookup(counts[1..], key)
  }

  /** `counts[key] = (counts[key] || 0) + 1`. */
  function Bump(counts: Counts, key: string): (r: Counts)
    ensures |r| >= |counts|
  {
    if counts == [] then [(key, 1)]
    else if counts[0].0 == key then [(key, counts[0].1 + 1)] + counts[1..]
    else [counts[0]] + Bump(counts[1..], key)
  }

  function SumCounts(counts: Counts): nat {
    if counts == [] then 0 else counts[0].1 + SumCounts(counts[1..])
  }

  predicate DistinctKeys(counts: Counts) {
    forall i, j :: 0 <= i < j < |counts| ==> counts[i].0 != counts[j].0
  }

  /** The counter after bumping every key of `keys` in turn. */
  function CountBy(keys: seq<string>): Counts {
    if keys == [] then [] else Bump(CountBy(keys[..|keys| - 1]), keys[|keys| - 1])
  }

  lemma {:induction false} BumpLookup(counts: Counts, key: string, other: string)
    ensures Lookup(Bump(counts, key), other) == Lookup(counts, other) + (if other == key then 1 else 0)
  {
    if counts != [] && counts[0].0 != key {
      BumpLookup(counts[1..], key, other);
    }
  }

  lemma {:induction false} BumpSum(counts: Counts, key: string)
    ensures SumCounts(Bump(counts, key)) == SumCounts(counts) + 1
  {
    if counts != [] && counts[0].0 != key {
      BumpSum(counts[1..], key);
    }
  }

  /** The keys of a counter, in order. */
  function Keys(counts: Counts): (ks: seq<string>)
    ensures |ks| == |counts|
    ensures forall i :: 0 <= i < |counts| ==> ks[i] == counts[i].0
  {
    if counts == [] then [] else [counts[0].0] + Keys(counts[1..])
  }

  lemma {:induction false} BumpKeys(counts: Counts, key: string)
    ensures forall k :: k in Keys(Bump(counts, key)) <==> k == key || k in Keys(counts)
  {
    if counts != [] && counts[0].0 != key {
      BumpKeys(counts[1..], key);
      assert Keys(Bump(counts, key)) == [counts[0].0] + Keys(Bump(counts[1..], key));
      assert Keys(counts) == [counts[0].0] + Keys(counts[1..]);
    }
  }

  /** A counter stays free of repeated keys when an entry with a new key is put in front. */
  lemma DistinctCons(entry: (string, nat), counts: Counts)
    requires DistinctKeys(counts) && entry.0 !in Keys(counts)
    ensures DistinctKeys([entry] + counts)
  {
    var r := [entry] + counts;
    forall i, j | 0 <= i < j < |r| ensures r[i].0 != r[j].0 {
      assert r[j] == counts[j - 1];
      if i == 0 {
        assert Keys(counts)[j - 1] in Keys(counts);
      } else {
        assert r[i] == counts[i - 1];
      }
    }
  }

  lemma {:induction false} BumpDistinct(counts: Counts, key: string)
    requires DistinctKeys(counts)
    ensures DistinctKeys(Bump(counts, key))
  {
    if counts == [] {
    } else if counts[0].0 == key {
      var r := Bump(counts, key);
      assert forall i :: 0 <= i < |r| ==> r[i].0 == counts[i].0;
    } else {
      var tail := counts[1..];
      BumpDistinct(tail, key);
      BumpKeys(tail, key);
      forall m | 0 <= m < |tail| ensures Keys(tail)[m] != counts[0].0 {
        assert tail[m] == counts[m + 1];
      }
      assert counts[0].0 !in Keys(Bump(tail, key));
      DistinctCons(counts[0], Bump(tail, key));
    }
  }

  /** The counter built from `keys` counts each key's occurrences, and its counts add up to |keys|. */
  lemma {:induction false} CountByCorrect(keys: seq<string>)
    ensures forall k :: Lookup(CountBy(keys), k) == multiset(keys)[k]
    ensures SumCounts(CountBy(keys)) == |keys|
    ensures DistinctKeys(CountBy(keys))
  {
    if keys != [] {
      var front := keys[..|keys| - 1];
      var last := keys[|keys| - 1];
      CountByCorrect(front);
      assert keys == front + [last];
      forall k ensures Lookup(CountBy(keys), k) == multiset(keys)[k] {
        BumpLookup(CountBy(front), last, k);
      }
      BumpSum(CountBy(front), last);
      BumpDistinct(CountBy(front), last);
    }
  }

  function Categories(ts: seq<Ticket>): (keys: seq<string>)
    ensures |keys| == |ts|
  {
    if ts == [] then [] else Categories(ts[..|ts| - 1]) + [ts[|ts| - 1].category]
  }

  function Priorities(ts: seq<Ticket>): (keys: seq<string>)
    ensures |keys| == |ts|
  {
    if ts == [] then [] else Priorities(ts[..|ts| - 1]) + [ts[|ts| - 1].priority]
  }

  /** `allTickets.filter(t => t.status === status).length`. */
  function CountStatus(ts: seq<Ticket>, status: string): nat {
    if ts == [] then 0
    else CountStatus(ts[..|ts| - 1], status) + (if ts[|ts| - 1].status == status then 1 else 0)
  }

  /** Tickets of three different statuses are at most all tickets. */
  lemma {:induction false} StatusCountsBounded(ts: seq<Ticket>, a: string, b: string, c: string)
    requires a != b && b != c && a != c
    ensures CountStatus(ts, a) + CountStatus(ts, b) + CountStatus(ts, c) <= |ts|
  {
    if ts != [] {
      StatusCountsBounded(ts[..|ts| - 1], a, b, c);
    }
  }

  datatype TicketStats = TicketStats(
    total: nat, pending: nat, inProgress: nat, completed: nat,
    byCategory: Counts, byPriority: Counts)

  // ---------------------------------------------------------------------------
  // Partial updates of users and templates: the update object is its list of keys
  // with their values, `None` standing for `undefined`.

  datatype Value = Text(text: string) | Flag(flag: bool) | Number(number: int) | List(items: seq<string>) | Null

  type Entries = seq<(string, Option<Value>)>

  predicate DistinctEntryKeys(entries: Entries) {
    forall i, j :: 0 <= i < j < |entries| ==> entries[i].0 != entries[j].0
  }

  /** The defined entries: the object the `cleanUpdates` loop builds. */
  function Defined(entries: Entries): (clean: map<string, Value>)
    ensures forall k :: k in clean <==> exists i :: 0 <= i < |entries| && entries[i].0 == k && entries[i].1.Some?
  {
    if entries == [] then map[]
    else
      var front := entries[..|entries| - 1];
      var last := entries[|entries| - 1];
      var before := Defined(front);
      assert forall i :: 0 <= i < |front| ==> front[i] == entries[i];
      if last.1.Some? then before[last.0 := last.1.value] else before
  }

  /** Each defined entry keeps its own value. */
  lemma {:induction false} DefinedValues(entries: Entries, i: nat)
    requires DistinctEntryKeys(entries) && i < |entries| && entries[i].1.Some?
    ensures entries[i].0 in Defined(entries) && Defined(entries)[entries[i].0] == entries[i].1.value
  {
    var front := entries[..|entries| - 1];
    if i < |entries| - 1 {
      DefinedValues(front, i);
    }
  }

  /** The `Object.keys(updates).forEach` loop that copies the keys whose value is not undefined. */
  method CleanUpdates(entries: Entries) returns (clean: map<string, Value>)
    ensures clean == Defined(entries)
    ensures forall k :: k in clean <==> exists i :: 0 <= i < |entries| && entries[i].0 == k && entries[i].1.Some?
  {
    clean := map[];
    var i := 0;
    while i < |entries|
      invariant 0 <= i <= |entries|
      invariant clean == Defined(entries[..i])
    {
      var (key, value) := entries[i];
      assert entries[..i + 1][..i] == entries[..i];
      if value.Some? {
        clean := clean[key := value.value];
      }
      i := i + 1;
    }
    assert entries[..i] == entries;
  }

  predicate TextOrNull(v: Value) {
    v.Text? || v.Null?
  }

  /** A text column's new value: the text, or NULL. */
  function OptionalText(v: Value): (r: Option<string>)
    ensures v.Text? ==> r == Some(v.text)
    ensures !v.Text? ==> r == None
  {
    if v.Text? then Some(v.text) else None
  }

  /** A boolean column's new value: the flag, or NULL. */
  function OptionalFlag(v: Value): (r: Option<bool>)
    ensures v.Flag? ==> r == Some(v.flag)
    ensures !v.Flag? ==> r == None
  {
    if v.Flag? then Some(v.flag) else None
  }

  /** A list column's new value: the items, or NULL. */
  function OptionalList(v: Value): (r: Option<seq<string>>)
    ensures v.List? ==> r == Some(v.items)
    ensures !v.List? ==> r == None
  {
    if v.List? then Some(v.items) else None
  }

  /** An integer column's new value: the number, or NULL. */
  function OptionalNumber(v: Value): (r: Option<int>)
    ensures v.Number? ==> r == Some(v.number)
    ensures !v.Number? ==> r == None
  {
    if v.Number? then Some(v.number) else None
  }

  /** The typed shape of `Partial<InsertTelegramUser>` for the columns it names. */
  predicate UserChangesFit(changes: map<string, Value>) {
    && ("telegramId" in changes ==> changes["telegramId"].Text?)
    && ("username" in changes ==> TextOrNull(changes["username"]))
    && ("firstName" in changes ==> TextOrNull(changes["firstName"]))
    && ("lastName" in changes ==> TextOrNull(changes["lastName"]))
    && ("role" in changes ==> changes["role"].Text?)
    && ("isActive" in changes ==> changes["isActive"].Flag? || changes["isActive"].Null?)
  }

  /** The typed shape of `Partial<InsertTicketTemplate>` for the columns it names. */
  predicate TemplateChangesFit(changes: map<string, Value>) {
    && ("name" in changes ==> changes["name"].Text?)
    && ("description" in changes ==> TextOrNull(changes["description"]))
    && ("category" in changes ==> changes["category"].Text?)
    && ("requiredFields" in changes ==> changes["requiredFields"].List? || changes["requiredFields"].Null?)
    && ("estimatedTime" in changes ==> changes["estimatedTime"].Number? || changes["estimatedTime"].Null?)
    && ("priority" in changes ==> changes["priority"].Text?)
    && ("isActive" in changes ==> changes["isActive"].Flag? || changes["isActive"].Null?)
  }

  /** `UPDATE telegram_users SET ...`: each named column takes its new value, the others stay. */
  function ApplyUserChanges(u: TelegramUser, changes: map<string, Value>): (r: TelegramUser)
    requires UserChangesFit(changes)
    ensures r.id == u.id && r.createdAt == u.createdAt
    ensures r.telegramId == if "telegramId" in changes then changes["telegramId"].text else u.telegramId
    ensures "username" !in changes ==> r.username == u.username
    ensures "username" in changes ==> r.username == OptionalText(changes["username"])
    ensures "firstName" !in changes ==> r.firstName == u.firstName
    ensures "firstName" in changes ==> r.firstName == OptionalText(changes["firstName"])
    ensures "lastName" !in changes ==> r.lastName == u.lastName
    ensures "lastName" in changes ==> r.lastName == OptionalText(changes["lastName"])
    ensures "role" !in changes ==> r.role == u.role
    ensures "role" in changes ==> r.role == changes["role"].text
    ensures "isActive" !in changes ==> r.isActive == u.isActive
    ensures "isActive" in changes ==> r.isActive == OptionalFlag(changes["isActive"])
  {
    u.(telegramId := if "telegramId" in changes then changes["telegramId"].text else u.telegramId,
       username := if "username" in changes then OptionalText(changes["username"]) else u.username,
       firstName := if "firstName" in changes then OptionalText(changes["firstName"]) else u.firstName,
       lastName := if "lastName" in changes then OptionalText(changes["lastName"]) else u.lastName,
       role := if "role" in changes then changes["role"].text else u.role,
       isActive := if "isActive" in changes then OptionalFlag(changes["isActive"]) else u.isActive)
  }

  /** `UPDATE ticket_templates SET ...`: each named column takes its new value, the others stay. */
  function ApplyTemplateChanges(t: TicketTemplate, changes: map<string, Value>): (r: TicketTemplate)
    requires TemplateChangesFit(changes)
    ensures r.id == t.id && r.createdAt == t.createdAt
    ensures "name" !in changes ==> r.name == t.name
    ensures "name" in changes ==> r.name == changes["name"].text
    ensures "description" !in changes ==> r.description == t.description
    ensures "description" in changes ==> r.description == OptionalText(changes["description"])
    ensures "category" !in changes ==> r.category == t.category
    ensures "category" in changes ==> r.category == changes["category"].text
    ensures "requiredFields" !in changes ==> r.requiredFields == t.requiredFields
    ensures "requiredFields" in changes ==> r.requiredFields == OptionalList(changes["requiredFields"])
    ensures "estimatedTime" !in changes ==> r.estimatedTime == t.estimatedTime
    ensures "estimatedTime" in changes ==> r.estimatedTime == OptionalNumber(changes["estimatedTime"])
    ensures "priority" !in changes ==> r.priority == t.priority
    ensures "priority" in changes ==> r.priority == changes["priority"].text
    ensures "isActive" !in changes ==> r.isActive == t.isActive
    ensures "isActive" in changes ==> r.isActive == OptionalFlag(changes["isActive"])
  {
    t.(name := if "name" in changes then changes["name"].text else t.name,
       description := if "description" in changes then OptionalText(changes["description"]) else t.description,
       category := if "category" in changes then changes["category"].text else t.category,
       requiredFields := if "requiredFields" in changes then OptionalList(changes["requiredFields"]) else t.requiredFields,
       estimatedTime := if "estimatedTime" in changes then OptionalNumber(changes["estimatedTime"]) else t.estimatedTime,
       priority := if "priority" in changes then changes["priority"].text else t.priority,
       isActive := if "isActive" in changes then OptionalFlag(changes["isActive"]) else t.isActive)
  }

  /** An update whose values are all undefined changes no column. */
  lemma UndefinedOnlyChangesNothing(u: TelegramUser, t: TicketTemplate, entries: Entries)
    requires forall i :: 0 <= i < |entries| ==> entries[i].1 == None
    ensures Defined(entries) == map[]
    ensures ApplyUserChanges(u, Defined(entries)) == u
    ensures ApplyTemplateChanges(t, Defined(entries)) == t
  {
  }

  // ---------------------------------------------------------------------------
  // updateTicket

  /** `Partial<InsertTicket>`: `None` is a key left out or undefined; nullable columns may be set to null. */
  datatype TicketUpdate = TicketUpdate(
    templateId: Option<Option<int>>, title: Option<string>, description: Option<Option<string>>,
    category: Option<string>, priority: Option<string>, status: Option<string>,
    requesterId: Option<Option<int>>, assigneeId: Option<Option<int>>,
    requestData: Option<Option<map<string, string>>>, response: Option<Option<string>>,
    estimatedTime: Option<Option<int>>, actualTime: Option<Option<int>>,
    dueDate: Option<Option<int>>, completedAt: Option<Option<int>>)

  const NoChanges := TicketUpdate(None, None, None, None, None, None, None, None, None, None, None, None, None, None)

  /** A column the update names takes the new value; the others keep theirs. */
  function Patch<T>(current: T, given: Option<T>): T {
    if given.Some? then given.value else current
  }

  /** `updates.status === 'completed' && !updates.completedAt`. */
  predicate StampsCompletion(u: TicketUpdate) {
    u.status == Some("completed") && (u.completedAt == None || u.completedAt == Some(None))
  }

  /** The row after `UPDATE tickets SET ...updates, updatedAt = now [, completedAt = now]`. */
  function ApplyTicketUpdate(t: Ticket, u: TicketUpdate, now: int): (r: Ticket)
    ensures r.id == t.id && r.createdAt == t.createdAt
    ensures r.updatedAt == now
    ensures u.templateId == None ==> r.templateId == t.templateId
    ensures u.templateId.Some? ==> r.templateId == u.templateId.value
    ensures u.title == None ==> r.title == t.title
    ensures u.title.Some? ==> r.title == u.title.value
    ensures u.description == None ==> r.description == t.description
    ensures u.description.Some? ==> r.description == u.description.value
    ensures u.category == None ==> r.category == t.category
    ensures u.category.Some? ==> r.category == u.category.value
    ensures u.priority == None ==> r.priority == t.priority
    ensures u.priority.Some? ==> r.priority == u.priority.value
    ensures u.status == None ==> r.status == t.status
    ensures u.status.Some? ==> r.status == u.status.value
    ensures u.requesterId == None ==> r.requesterId == t.requesterId
    ensures u.requesterId.Some? ==> r.requesterId == u.requesterId.value
    ensures u.assigneeId == None ==> r.assigneeId == t.assigneeId
    ensures u.assigneeId.Some? ==> r.assigneeId == u.assigneeId.value
    ensures u.requestData == None ==> r.requestData == t.requestData
    ensures u.requestData.Some? ==> r.requestData == u.requestData.value
    ensures u.response == None ==> r.response == t.response
    ensures u.response.Some? ==> r.response == u.response.value
    ensures u.estimatedTime == None ==> r.estimatedTime == t.estimatedTime
    ensures u.estimatedTime.Some? ==> r.estimatedTime == u.estimatedTime.value
    ensures u.actualTime == None ==> r.actualTime == t.actualTime
    ensures u.actualTime.Some? ==> r.actualTime == u.actualTime.value
    ensures u.dueDate == None ==> r.dueDate == t.dueDate
    ensures u.dueDate.Some? ==> r.dueDate == u.dueDate.value
    ensures StampsCompletion(u) ==> r.completedAt == Some(now)
    ensures !StampsCompletion(u) && u.completedAt == None ==> r.completedAt == t.completedAt
    ensures !StampsCompletion(u) && u.completedAt.Some? ==> r.completedAt == u.completedAt.value
  {
    t.(templateId := Patch(t.templateId, u.templateId),
       title := Patch(t.title, u.title),
       description := Patch(t.description, u.description),
       category := Patch(t.category, u.category),
       priority := Patch(t.priority, u.priority),
       status := Patch(t.status, u.status),
       requesterId := Patch(t.requesterId, u.requesterId),
       assigneeId := Patch(t.assigneeId, u.assigneeId),
       requestData := Patch(t.requestData, u.requestData),
       response := Patch(t.response, u.response),
       estimatedTime := Patch(t.estimatedTime, u.estimatedTime),
       actualTime := Patch(t.actualTime, u.actualTime),
       dueDate := Patch(t.dueDate, u.dueDate),
       completedAt := if StampsCompletion(u) then Some(now) else Patch(t.completedAt, u.completedAt),
       updatedAt := now)
  }

  /** An update naming no column still refreshes `updatedAt`, and changes nothing else. */
  lemma EmptyUpdateOnlyTouchesUpdatedAt(t: Ticket, now: int)
    ensures ApplyTicketUpdate(t, NoChanges, now) == t.(updatedAt := now)
  {
  }

  /**
   * Sending the same update again at the same instant changes nothing more; sent again
   * later, a completing update moves `completedAt` to the later instant.
   */
  lemma CompletionStamp(t: Ticket, u: TicketUpdate, now: int, later: int)
    ensures ApplyTicketUpdate(ApplyTicketUpdate(t, u, now), u, now) == ApplyTicketUpdate(t, u, now)
    ensures StampsCompletion(u) ==> ApplyTicketUpdate(ApplyTicketUpdate(t, u, now), u, later).completedAt == Some(later)
  {
  }

  // ---------------------------------------------------------------------------
  // Table invariants: a `serial` id is unique and below the next value of its
  // sequence, which starts at 1; `telegram_id` is a unique key.

  predicate UsersWellFormed(users: seq<TelegramUser>, next: int) {
    && next >= 1
    && (forall i, j :: 0 <= i < j < |users| ==> users[i].id != users[j].id && users[i].telegramId != users[j].telegramId)
    && (forall i :: 0 <= i < |users| ==> 1 <= users[i].id < next)
  }

  predicate TemplatesWellFormed(templates: seq<TicketTemplate>, next: int) {
    && next >= 1
    && (forall i, j :: 0 <= i < j < |templates| ==> templates[i].id != templates[j].id)
    && (forall i :: 0 <= i < |templates| ==> 1 <= templates[i].id < next)
  }

  predicate TicketsWellFormed(tickets: seq<Ticket>, next: int) {
    && next >= 1
    && (forall i, j :: 0 <= i < j < |tickets| ==> tickets[i].id != tickets[j].id)
    && (forall i :: 0 <= i < |tickets| ==> 1 <= tickets[i].id < next)
  }

  predicate CommentsWellFormed(comments: seq<TicketComment>, next: int) {
    && next >= 1
    && (forall i, j :: 0 <= i < j < |comments| ==> comments[i].id != comments[j].id)
    && (forall i :: 0 <= i < |comments| ==> 1 <= comments[i].id < next)
  }

  predicate MessagesWellFormed(messages: seq<TelegramMessage>, next: int) {
    && next >= 1
    && (forall i, j :: 0 <= i < j < |messages| ==> messages[i].id != messages[j].id)
    && (forall i :: 0 <= i < |messages| ==> 1 <= messages[i].id < next)
  }

  /** The first `n` of a newest-first list: part of it, sorted, and none of the rest is newer than any of them. */
  lemma TakeNewest(ordered: seq<TelegramMessage>, n: nat)
    requires n <= |ordered| && SortedBy(ordered, MessageNotOlder)
    ensures multiset(ordered[..n]) <= multiset(ordered)
    ensures SortedBy(ordered[..n], MessageNotOlder)
    ensures forall m, k :: m in multiset(ordered) - multiset(ordered[..n]) && k in ordered[..n] ==>
      k.createdAt >= m.createdAt
  {
    var front, rest := ordered[..n], ordered[n..];
    assert ordered == front + rest;
    assert multiset(ordered) == multiset(front) + multiset(rest);
    forall m, k | m in multiset(ordered) - multiset(front) && k in front
      ensures k.createdAt >= m.createdAt
    {
      assert m in rest;
      var j :| 0 <= j < |rest| && rest[j] == m;
      var i :| 0 <= i < |front| && front[i] == k;
      assert ordered[i] == k && ordered[n + j] == m;
    }
  }

  // ---------------------------------------------------------------------------
  // The store

  class DatabaseStorage {
    var telegramUsers: seq<TelegramUser>
    var templates: seq<TicketTemplate>
    var tickets: seq<Ticket>
    var comments: seq<TicketComment>
    var messages: seq<TelegramMessage>
    var nextUserId: int
    var nextTemplateId: int
    var nextTicketId: int
    var nextCommentId: int
    var nextMessageId: int

    /** Serial ids are unique and below their counters; `telegram_id` is unique. */
    ghost predicate Valid()
      reads this
    {
      && UsersWellFormed(telegramUsers, nextUserId)
      && TemplatesWellFormed(templates, nextTemplateId)
      && TicketsWellFormed(tickets, nextTicketId)
      && CommentsWellFormed(comments, nextCommentId)
      && MessagesWellFormed(messages, nextMessageId)
    }

    /** The five serial counters: users, templates, tickets, comments, messages. */
    ghost function Serials(): (int, int, int, int, int)
      reads this
    {
      (nextUserId, nextTemplateId, nextTicketId, nextCommentId, nextMessageId)
    }

    /** An empty database. */
    constructor ()
      ensures Valid()
      ensures telegramUsers == [] && templates == [] && tickets == [] && comments == [] && messages == []
    {
      telegramUsers, templates, tickets, comments, messages := [], [], [], [], [];
      nextUserId, nextTemplateId, nextTicketId, nextCommentId, nextMessageId := 1, 1, 1, 1, 1;
    }

    // ---- telegram users

    /** `getTelegramUser`: the user with that Telegram id, if any. */
    function GetTelegramUser(telegramId: string): (user: Option<TelegramUser>)
      reads this
      ensures user.Some? ==> user.value in telegramUsers && user.value.telegramId == telegramId
      ensures user.None? <==> forall i :: 0 <= i < |telegramUsers| ==> telegramUsers[i].telegramId != telegramId
    {
      var found := Where(telegramUsers, (u: TelegramUser) => u.telegramId == telegramId);
      if found == [] then
        assert forall i :: 0 <= i < |telegramUsers| ==> telegramUsers[i] !in found;
        None
      else
        assert found[0] in found;
        Some(found[0])
    }

    /**
     * `createTelegramUser`. The `serial` sequence hands out its next value before the row is
     * checked, so a second user with the same Telegram id, which violates the unique key,
     * still uses up an id.
     */
    method CreateTelegramUser(ins: InsertTelegramUser, now: int) returns (user: Option<TelegramUser>)
      requires Valid()
      modifies this
      ensures Valid()
      ensures Serials() == (old(nextUserId) + 1, old(nextTemplateId), old(nextTicketId), old(nextCommentId), old(nextMessageId))
      ensures old(GetTelegramUser(ins.telegramId)).Some? ==>
        && user == None
        && telegramUsers == old(telegramUsers)
        && templates == old(templates) && tickets == old(tickets) && comments == old(comments) && messages == old(messages)
      ensures old(GetTelegramUser(ins.telegramId)).None? ==>
        && user == Some(NewTelegramUser(ins, old(nextUserId), now))
        && telegramUsers == old(telegramUsers) + [user.value]
        && templates == old(templates) && tickets == old(tickets) && comments == old(comments) && messages == old(messages)
    {
      var id := nextUserId;
      nextUserId := nextUserId + 1;
      if GetTelegramUser(ins.telegramId).Some? {
        return None;
      }
      var u := NewTelegramUser(ins, id, now);
      telegramUsers := telegramUsers + [u];
      user := Some(u);
    }

    /** `getTelegramUsersByRole`: the active users holding `role`, in table order. */
    function GetTelegramUsersByRole(role: string): (users: seq<TelegramUser>)
      reads this
      ensures forall u :: u in users <==> u in telegramUsers && u.role == role && u.isActive == Some(true)
    {
      Where(telegramUsers, (u: TelegramUser) => u.role == role && u.isActive == Some(true))
    }

    /**
     * `updateTelegramUser`: the defined keys of `entries` are written to the user with that
     * id. A new Telegram id already held by another user violates the unique key and the
     * call fails (`None`) without changing anything.
     */
    method UpdateTelegramUser(id: int, entries: Entries) returns (outcome: Option<Option<TelegramUser>>)
      requires Valid() && DistinctEntryKeys(entries) && UserChangesFit(Defined(entries))
      modifies this
      ensures Valid()
      ensures templates == old(templates) && tickets == old(tickets) && comments == old(comments) && messages == old(messages)
      ensures Serials() == old(Serials())
      ensures outcome.None? <==>
        && (exists k :: 0 <= k < |old(telegramUsers)| && old(telegramUsers)[k].id == id)
        && "telegramId" in Defined(entries)
        && exists j :: 0 <= j < |old(telegramUsers)| && old(telegramUsers)[j].id != id
                       && old(telegramUsers)[j].telegramId == Defined(entries)["telegramId"].text
      ensures outcome.None? ==> telegramUsers == old(telegramUsers)
      ensures outcome.Some? ==>
        telegramUsers == seq(|old(telegramUsers)|, i requires 0 <= i < |old(telegramUsers)| =>
          if old(telegramUsers)[i].id == id then ApplyUserChanges(old(telegramUsers)[i], Defined(entries)) else old(telegramUsers)[i])
      ensures outcome.Some? && outcome.value.Some? ==> outcome.value.value in telegramUsers && outcome.value.value.id == id
      ensures outcome == Some(None) <==> forall i :: 0 <= i < |old(telegramUsers)| ==> old(telegramUsers)[i].id != id
    {
      var clean := CleanUpdates(entries);
      var users := telegramUsers;
      var updated := seq(|users|, i requires 0 <= i < |users| =>
        if users[i].id == id then ApplyUserChanges(users[i], clean) else users[i]);
      var k := IndexOfUser(id);
      if k < 0 {
        assert forall i :: 0 <= i < |users| ==> updated[i] == users[i];
        assert updated == users;
        return Some(None);
      }
      if "telegramId" in clean && exists j :: 0 <= j < |users| && j != k && users[j].telegramId == clean["telegramId"].text {
        return None;
      }
      assert forall i :: 0 <= i < |updated| && i != k ==> updated[i] == users[i];
      telegramUsers := updated;
      outcome := Some(Some(updated[k]));
    }

    /** The position of the user with that id, or -1. */
    function IndexOfUser(id: int): (k: int)
      reads this
      requires Valid()
      ensures -1 <= k < |telegramUsers|
      ensures k >= 0 ==> telegramUsers[k].id == id && forall j :: 0 <= j < |telegramUsers| && j != k ==> telegramUsers[j].id != id
      ensures k < 0 <==> forall j :: 0 <= j < |telegramUsers| ==> telegramUsers[j].id != id
    {
      if exists j :: 0 <= j < |telegramUsers| && telegramUsers[j].id == id then
        var j :| 0 <= j < |telegramUsers| && telegramUsers[j].id == id; j
      else -1
    }

    // ---- templates

    /** `getTicketTemplates`: the active templates ordered by name. */
    method GetTicketTemplates() returns (active: seq<TicketTemplate>)
      ensures forall t :: t in active <==> t in templates && t.isActive == Some(true)
      ensures SortedBy(active, NameNotAfter)
      ensures multiset(active) == multiset(Where(templates, (t: TicketTemplate) => t.isActive == Some(true)))
    {
      var selected := Where(templates, (t: TicketTemplate) => t.isActive == Some(true));
      active := SortBy(selected, NameNotAfter);
      OrdersAreTotalPreorders();
      SortBySorted(selected, NameNotAfter);
      forall t ensures t in active <==> t in selected {
        SortByMembers(selected, NameNotAfter, t);
      }
    }

    /** `getTicketTemplate`: the template with that id, active or not. */
    function GetTicketTemplate(id: int): (template: Option<TicketTemplate>)
      reads this
      ensures template.Some? ==> template.value in templates && template.value.id == id
      ensures template.None? <==> forall i :: 0 <= i < |templates| ==> templates[i].id != id
    {
      var found := Where(templates, (t: TicketTemplate) => t.id == id);
      if found == [] then
        assert forall i :: 0 <= i < |templates| ==> templates[i] !in found;
        None
      else
        assert found[0] in found;
        Some(found[0])
    }

    method CreateTicketTemplate(ins: InsertTicketTemplate, now: int) returns (template: TicketTemplate)
      requires Valid()
      modifies this
      ensures Valid()
      ensures template == NewTicketTemplate(ins, old(nextTemplateId), now)
      ensures templates == old(templates) + [template]
      ensures Serials() == (old(nextUserId), old(nextTemplateId) + 1, old(nextTicketId), old(nextCommentId), old(nextMessageId))
      ensures telegramUsers == old(telegramUsers) && tickets == old(tickets) && comments == old(comments) && messages == old(messages)
    {
      template := NewTicketTemplate(ins, nextTemplateId, now);
      templates := templates + [template];
      nextTemplateId := nextTemplateId + 1;
    }

    /** `updateTicketTemplate`: the defined keys of `entries` are written to the template with that id. */
    method UpdateTicketTemplate(id: int, entries: Entries) returns (template: Option<TicketTemplate>)
      requires Valid() && DistinctEntryKeys(entries) && TemplateChangesFit(Defined(entries))
      modifies this
      ensures Valid()
      ensures telegramUsers == old(telegramUsers) && tickets == old(tickets) && comments == old(comments) && messages == old(messages)
      ensures Serials() == old(Serials())
      ensures templates == seq(|old(templates)|, i requires 0 <= i < |old(templates)| =>
        if old(templates)[i].id == id then ApplyTemplateChanges(old(templates)[i], Defined(entries)) else old(templates)[i])
      ensures template.Some? ==> template.value in templates && template.value.id == id
      ensures template.None? <==> forall i :: 0 <= i < |old(templates)| ==> old(templates)[i].id != id
    {
      var clean := CleanUpdates(entries);
      var before := templates;
      templates := seq(|before|, i requires 0 <= i < |before| =>
        if before[i].id == id then ApplyTemplateChanges(before[i], clean) else before[i]);
      assert forall i :: 0 <= i < |templates| ==> templates[i].id == before[i].id;
      assert TemplatesWellFormed(templates, nextTemplateId);
      template := GetTicketTemplate(id);
    }

    /** `deleteTicketTemplate`: a soft delete that clears `isActive`; true when a row was hit. */
    method DeleteTicketTemplate(id: int) returns (deleted: bool)
      requires Valid()
      modifies this
      ensures Valid()
      ensures telegramUsers == old(telegramUsers) && tickets == old(tickets) && comments == old(comments) && messages == old(messages)
      ensures Serials() == old(Serials())
      ensures templates == Deactivated(old(templates), id)
      ensures deleted <==> exists i :: 0 <= i < |old(templates)| && old(templates)[i].id == id
    {
      deleted := GetTicketTemplate(id).Some?;
      templates := Deactivated(templates, id);
    }

    // ---- tickets

    /** The `conditions` array of `getTickets`: one entry per truthy filter, in a fixed order. */
    static method PushConditions(filters: Option<TicketFilters>) returns (conditions: seq<Condition>)
      ensures conditions == ConditionsOf(filters)
    {
      conditions := [];
      if filters.Some? {
        var f := filters.value;
        var a := Optional(TruthyText(f.status), StatusIs(f.status.GetOr("")));
        var b := Optional(TruthyText(f.priority), PriorityIs(f.priority.GetOr("")));
        var c := Optional(TruthyText(f.category), CategoryIs(f.category.GetOr("")));
        var d := Optional(TruthyNumber(f.assigneeId), AssigneeIs(f.assigneeId.GetOr(0)));
        if TruthyText(f.status) { conditions := conditions + [StatusIs(f.status.value)]; }
        assert conditions == a;
        if TruthyText(f.priority) { conditions := conditions + [PriorityIs(f.priority.value)]; }
        assert conditions == a + b;
        if TruthyText(f.category) { conditions := conditions + [CategoryIs(f.category.value)]; }
        assert conditions == a + b + c;
        if TruthyNumber(f.assigneeId) { conditions := conditions + [AssigneeIs(f.assigneeId.value)]; }
        assert conditions == a + b + c + d;
        if TruthyNumber(f.requesterId) { conditions := conditions + [RequesterIs(f.requesterId.value)]; }
      }
    }

    /**
     * `getTickets`: the tickets passing every truthy filter, newest first; with no filter
     * object or no truthy field, all tickets.
     */
    method GetTickets(filters: Option<TicketFilters>) returns (result: seq<Ticket>)
      ensures forall t :: t in result <==> t in tickets && Admits(filters, t)
      ensures SortedBy(result, NewerOrSame)
      ensures multiset(result) == multiset(Where(tickets, (t: Ticket) => AllHold(ConditionsOf(filters), t)))
      ensures filters.None? || !AnyTruthy(filters.value) ==> multiset(result) == multiset(tickets)
    {
      var conditions := PushConditions(filters);
      var selected := tickets;
      if |conditions| > 0 {
        selected := Where(tickets, (t: Ticket) => AllHold(conditions, t));
      } else {
        NoConditionsIffNothingTruthy(filters);
        assert forall t :: AllHold(conditions, t);
        assert Where(tickets, (t: Ticket) => AllHold(conditions, t)) == tickets by {
          WhereAll(tickets, (t: Ticket) => AllHold(conditions, t));
        }
      }
      result := SortBy(selected, NewerOrSame);
      OrdersAreTotalPreorders();
      SortBySorted(selected, NewerOrSame);
      forall t ensures t in result <==> t in tickets && Admits(filters, t) {
        SortByMembers(selected, NewerOrSame, t);
        ConditionsMeanFilters(filters, t);
      }
    }

    /** `getTicket`: the ticket with that id, if any. */
    function GetTicket(id: int): (ticket: Option<Ticket>)
      reads this
      ensures ticket.Some? ==> ticket.value in tickets && ticket.value.id == id
      ensures ticket.None? <==> forall i :: 0 <= i < |tickets| ==> tickets[i].id != id
    {
      var found := Where(tickets, (t: Ticket) => t.id == id);
      if found == [] then
        assert forall i :: 0 <= i < |tickets| ==> tickets[i] !in found;
        None
      else
        assert found[0] in found;
        Some(found[0])
    }

    method CreateTicket(ins: InsertTicket, now: int) returns (ticket: Ticket)
      requires Valid()
      modifies this
      ensures Valid()
      ensures ticket == NewTicket(ins, old(nextTicketId), now)
      ensures tickets == old(tickets) + [ticket]
      ensures telegramUsers == old(telegramUsers) && templates == old(templates) && comments == old(comments) && messages == old(messages)
      ensures Serials() == (old(nextUserId), old(nextTemplateId), old(nextTicketId) + 1, old(nextCommentId), old(nextMessageId))
    {
      ticket := NewTicket(ins, nextTicketId, now);
      tickets := tickets + [ticket];
      nextTicketId := nextTicketId + 1;
    }

    /**
     * `updateTicket`: the ticket with that id takes the update (and the `updatedAt` and
     * `completedAt` stamps); no other row changes. A missing id changes nothing.
     */
    method UpdateTicket(id: int, u: TicketUpdate, now: int) returns (ticket: Option<Ticket>)
      requires Valid()
      modifies this
      ensures Valid()
      ensures telegramUsers == old(telegramUsers) && templates == old(templates) && comments == old(comments) && messages == old(messages)
      ensures Serials() == old(Serials())
      ensures |tickets| == |old(tickets)|
      ensures forall i :: 0 <= i < |tickets| ==>
        tickets[i] == if old(tickets)[i].id == id then ApplyTicketUpdate(old(tickets)[i], u, now) else old(tickets)[i]
      ensures ticket.None? <==> forall i :: 0 <= i < |old(tickets)| ==> old(tickets)[i].id != id
      ensures ticket.None? ==> tickets == old(tickets)
      ensures ticket.Some? ==> exists i :: 0 <= i < |old(tickets)| && old(tickets)[i].id == id
                                          && ticket.value == ApplyTicketUpdate(old(tickets)[i], u, now) == tickets[i]
    {
      var before := tickets;
      tickets := seq(|before|, i requires 0 <= i < |before| =>
        if before[i].id == id then ApplyTicketUpdate(before[i], u, now) else before[i]);
      if forall i :: 0 <= i < |before| ==> before[i].id != id {
        assert forall i :: 0 <= i < |before| ==> tickets[i] == before[i];
        assert tickets == before;
        ticket := None;
      } else {
        var k :| 0 <= k < |before| && before[k].id == id;
        ticket := Some(tickets[k]);
      }
    }

    /** `getTicketsByRequester`: the tickets of one requester, newest first. */
    method GetTicketsByRequester(requesterId: int) returns (result: seq<Ticket>)
      ensures forall t :: t in result <==> t in tickets && ColumnIs(t.requesterId, requesterId)
      ensures SortedBy(result, NewerOrSame)
      ensures multiset(result) == multiset(Where(tickets, (t: Ticket) => ColumnIs(t.requesterId, requesterId)))
    {
      var selected := Where(tickets, (t: Ticket) => ColumnIs(t.requesterId, requesterId));
      result := SortBy(selected, NewerOrSame);
      OrdersAreTotalPreorders();
      SortBySorted(selected, NewerOrSame);
      forall t ensures t in result <==> t in selected {
        SortByMembers(selected, NewerOrSame, t);
      }
    }

    /** `getTicketsByAssignee`: the tickets assigned to one user, newest first. */
    method GetTicketsByAssignee(assigneeId: int) returns (result: seq<Ticket>)
      ensures forall t :: t in result <==> t in tickets && ColumnIs(t.assigneeId, assigneeId)
      ensures SortedBy(result, NewerOrSame)
      ensures multiset(result) == multiset(Where(tickets, (t: Ticket) => ColumnIs(t.assigneeId, assigneeId)))
    {
      var selected := Where(tickets, (t: Ticket) => ColumnIs(t.assigneeId, assigneeId));
      result := SortBy(selected, NewerOrSame);
      OrdersAreTotalPreorders();
      SortBySorted(selected, NewerOrSame);
      forall t ensures t in result <==> t in selected {
        SortByMembers(selected, NewerOrSame, t);
      }
    }

    // ---- comments and messages

    /**
     * The two `getTicketComments` queries: the comments of one ticket, and without
     * `includeInternal` only those whose `isInternal` is false (a NULL flag is not false).
     */
    function CommentsOf(ticketId: int, includeInternal: bool): (selected: seq<TicketComment>)
      reads this
      ensures forall c :: c in selected <==>
        c in comments && ColumnIs(c.ticketId, ticketId) && (includeInternal || c.isInternal == Some(false))
    {
      if !includeInternal then
        Where(comments, (c: TicketComment) => ColumnIs(c.ticketId, ticketId) && c.isInternal == Some(false))
      else
        Where(comments, (c: TicketComment) => ColumnIs(c.ticketId, ticketId))
    }

    /** `getTicketComments`: the selected comments, oldest first; internal ones only when the caller asks for them. */
    method GetTicketComments(ticketId: int, includeInternal: bool := false) returns (result: seq<TicketComment>)
      ensures forall c :: c in result <==>
        c in comments && ColumnIs(c.ticketId, ticketId) && (includeInternal || c.isInternal == Some(false))
      ensures SortedBy(result, CommentNotLater)
      ensures multiset(result) == multiset(CommentsOf(ticketId, includeInternal))
    {
      var selected := CommentsOf(ticketId, includeInternal);
      result := SortBy(selected, CommentNotLater);
      OrdersAreTotalPreorders();
      SortBySorted(selected, CommentNotLater);
      forall c ensures c in result <==> c in selected {
        SortByMembers(selected, CommentNotLater, c);
      }
    }

    method CreateTicketComment(ins: InsertTicketComment, now: int) returns (comment: TicketComment)
      requires Valid()
      modifies this
      ensures Valid()
      ensures comment == NewTicketComment(ins, old(nextCommentId), now)
      ensures comments == old(comments) + [comment]
      ensures Serials() == (old(nextUserId), old(nextTemplateId), old(nextTicketId), old(nextCommentId) + 1, old(nextMessageId))
      ensures telegramUsers == old(telegramUsers) && templates == old(templates) && tickets == old(tickets) && messages == old(messages)
    {
      comment := NewTicketComment(ins, nextCommentId, now);
      comments := comments + [comment];
      nextCommentId := nextCommentId + 1;
    }

    method CreateTelegramMessage(ins: InsertTelegramMessage, now: int) returns (message: TelegramMessage)
      requires Valid()
      modifies this
      ensures Valid()
      ensures message == NewTelegramMessage(ins, old(nextMessageId), now)
      ensures messages == old(messages) + [message]
      ensures telegramUsers == old(telegramUsers) && templates == old(templates) && tickets == old(tickets) && comments == old(comments)
      ensures Serials() == (old(nextUserId), old(nextTemplateId), old(nextTicketId), old(nextCommentId), old(nextMessageId) + 1)
    {
      message := NewTelegramMessage(ins, nextMessageId, now);
      messages := messages + [message];
      nextMessageId := nextMessageId + 1;
    }

    /** The messages logged for one Telegram id, in table order. */
    function MessagesOf(telegramId: string): (selected: seq<TelegramMessage>)
      reads this
      ensures forall m :: m in selected <==> m in messages && m.telegramId == telegramId
    {
      Where(messages, (m: TelegramMessage) => m.telegramId == telegramId)
    }

    /**
     * `getTelegramMessages`: the newest `limit` messages of one Telegram id (50 when the
     * caller gives no limit), newest first. No message left out is newer than one returned.
     */
    method GetTelegramMessages(telegramId: string, limit: nat := 50) returns (result: seq<TelegramMessage>)
      ensures |result| == if |MessagesOf(telegramId)| <= limit then |MessagesOf(telegramId)| else limit
      ensures multiset(result) <= multiset(MessagesOf(telegramId))
      ensures forall m :: m in result ==> m in messages && m.telegramId == telegramId
      ensures SortedBy(result, MessageNotOlder)
      ensures forall m, k :: m in multiset(MessagesOf(telegramId)) - multiset(result) && k in result ==>
        k.createdAt >= m.createdAt
    {
      var selected := MessagesOf(telegramId);
      var ordered := SortBy(selected, MessageNotOlder);
      OrdersAreTotalPreorders();
      SortBySorted(selected, MessageNotOlder);
      var n := if |ordered| <= limit then |ordered| else limit;
      result := ordered[..n];
      TakeNewest(ordered, n);
      forall m | m in result ensures m in messages && m.telegramId == telegramId {
        SortByMembers(selected, MessageNotOlder, m);
      }
    }

    // ---- statistics

    /** `getTicketStats`: the status counts and the two per-key counters over all tickets. */
    method GetTicketStats() returns (stats: TicketStats)
      ensures stats.total == |tickets|
      ensures stats.pending == CountStatus(tickets, "pending")
      ensures stats.inProgress == CountStatus(tickets, "in_progress")
      ensures stats.completed == CountStatus(tickets, "completed")
      ensures stats.pending + stats.inProgress + stats.completed <= stats.total
      ensures stats.byCategory == CountBy(Categories(tickets)) && stats.byPriority == CountBy(Priorities(tickets))
      ensures SumCounts(stats.byCategory) == stats.total && SumCounts(stats.byPriority) == stats.total
      ensures DistinctKeys(stats.byCategory) && DistinctKeys(stats.byPriority)
      ensures forall k :: Lookup(stats.byCategory, k) == multiset(Categories(tickets))[k]
      ensures forall k :: Lookup(stats.byPriority, k) == multiset(Priorities(tickets))[k]
    {
      var allTickets := tickets;
      var byCategory: Counts := [];
      var i := 0;
      while i < |allTickets|
        invariant 0 <= i <= |allTickets|
        invariant byCategory == CountBy(Categories(allTickets[..i]))
      {
        assert allTickets[..i + 1][..i] == allTickets[..i];
        byCategory := Bump(byCategory, allTickets[i].category);
        i := i + 1;
      }
      var byPriority: Counts := [];
      i := 0;
      while i < |allTickets|
        invariant 0 <= i <= |allTickets|
        invariant byPriority == CountBy(Priorities(allTickets[..i]))
      {
        assert allTickets[..i + 1][..i] == allTickets[..i];
        byPriority := Bump(byPriority, allTickets[i].priority);
        i := i + 1;
      }
      assert allTickets[..i] == allTickets;
      StatusCountsBounded(allTickets, "pending", "in_progress", "completed");
      CountByCorrect(Categories(allTickets));
      CountByCorrect(Priorities(allTickets));
      stats := TicketStats(|allTickets|, CountStatus(allTickets, "pending"), CountStatus(allTickets, "in_progress"),
                           CountStatus(allTickets, "completed"), byCategory, byPriority);
    }
  }

  /** The templates after `UPDATE ticket_templates SET is_active = false WHERE id = ...`. */
  function Deactivated(templates: seq<TicketTemplate>, id: int): (r: seq<TicketTemplate>)
    ensures |r| == |templates|
    ensures forall i :: 0 <= i < |r| ==>
      r[i] == if templates[i].id == id then templates[i].(isActive := Some(false)) else templates[i]
  {
    seq(|templates|, i requires 0 <= i < |templates| =>
      if templates[i].id == id then templates[i].(isActive := Some(false)) else templates[i])
  }

  /**
   * A soft-deleted template stays in the table under its id, so `getTicketTemplate` still
   * finds it, but it is no longer active, so `getTicketTemplates` leaves it out.
   */
  lemma DeactivatedStaysButHidden(templates: seq<TicketTemplate>, id: int)
    ensures forall i :: 0 <= i < |templates| ==> Deactivated(templates, id)[i].id == templates[i].id
    ensures forall t :: t in Deactivated(templates, id) && t.id == id ==> t.isActive == Some(false)
    ensures (exists i :: 0 <= i < |templates| && templates[i].id == id) ==> exists t :: t in Deactivated(templates, id) && t.id == id
  {
    var r := Deactivated(templates, id);
    if exists i :: 0 <= i < |templates| && templates[i].id == id {
      var i :| 0 <= i < |templates| && templates[i].id == id;
      assert r[i] in r;
    }
  }

  lemma {:induction false} WhereAll<T(!new)>(rows: seq<T>, keep: T -> bool)
    requires forall x :: keep(x)
    ensures Where(rows, keep) == rows
  {
    if rows != [] {
      WhereAll(rows[..|rows| - 1], keep);
    }
  }
}
