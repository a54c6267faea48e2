/**
 * The habits and priorities API routes: who may call them, what a request
 * body must carry, the defaults a new record gets, and the status code each
 * path answers with.
 *
 * The session is the signed-in user's email (`None` when there is no session
 * or no email). The database is a `Store` of users and rows; whether each
 * query succeeds is a `Faults` parameter, since a failed query answers
 * `success: false` rather than throwing.
 */
module ApiRoutes {
  import opened Types
  import opened Collections

  datatype HabitRecord = HabitRecord(
    id: string,
    userId: string,
    name: string,
    category: Option<string>,
    difficulty: string,
    estimatedTime: int,
    completedDays: Week)

  datatype PriorityRecord = PriorityRecord(
    id: string,
    userId: string,
    text: string,
    level: string,
    estimatedTime: Option<int>,
    category: Option<string>,
    dueDate: Option<string>,
    tags: seq<string>)

  /** The fields a POST body may carry; absent fields are `None`. */
  datatype HabitBody = HabitBody(
    name: Option<string>,
    category: Option<string>,
    difficulty: Option<string>,
    estimatedTime: Option<int>,
    completedDays: Option<Week>)

  datatype PriorityBody = PriorityBody(
    text: Option<string>,
    level: Option<string>,
    estimatedTime: Option<int>,
    category: Option<string>,
    dueDate: Option<string>,
    tags: Option<seq<string>>)

  datatype ApiBody =
    | ErrorBody(error: string)
    | HabitList(habits: seq<HabitRecord>)
    | HabitCreated(habit: HabitRecord)
    | PriorityList(priorities: seq<PriorityRecord>)
    | PriorityCreated(priority: PriorityRecord)

  datatype ApiResponse = ApiResponse(status: int, body: ApiBody)

  /** Whether each database call succeeds. */
  datatype Faults = Faults(lookupOk: bool, createUserOk: bool, queryOk: bool, insertOk: bool)

  /** A JavaScript-truthy optional string: present and not empty. */
  predicate Given(s: Option<string>)
  {
    s.Some? && s.value != []
  }

  function StringOr(s: Option<string>, fallback: string): (r: string)
    ensures Given(s) ==> r == s.value
    ensures !Given(s) ==> r == fallback
  {
    if Given(s) then s.value else fallback
  }

  /** The record createHabit stores: difficulty 'medium', 15 minutes and an unchecked week unless given. */
  function NewHabitRecord(id: string, userId: string, b: HabitBody): (h: HabitRecord)
    requires Given(b.name)
    ensures h.name == b.name.value && h.userId == userId && h.category == b.category
    ensures h.difficulty == StringOr(b.difficulty, "medium")
    ensures h.estimatedTime == OrDefault(b.estimatedTime, 15)
    ensures b.completedDays.None? ==> h.completedDays == EmptyWeek
    ensures b.completedDays.Some? ==> h.completedDays == b.completedDays.value
  {
    HabitRecord(id, userId, b.name.value, b.category, StringOr(b.difficulty, "medium"),
                OrDefault(b.estimatedTime, 15),
                if b.completedDays.Some? then b.completedDays.value else EmptyWeek)
  }

  /** A body with nothing but a name gives a medium, 15-minute habit with no day checked. */
  lemma NameOnlyHabit(id: string, userId: string, name: string)
    requires name != []
    ensures var h := NewHabitRecord(id, userId, HabitBody(Some(name), None, None, None, None));
            h.difficulty == "medium" && h.estimatedTime == 15 && CountTrue(h.completedDays) == 0
  {
    assert EmptyWeek == [false] + [false, false, false, false, false, false];
    CountTrueAppend([false], [false, false, false, false, false, false]);
    assert [false, false, false, false, false, false] == [false] + [false, false, false, false, false];
    CountTrueAppend([false], [false, false, false, false, false]);
    assert [false, false, false, false, false] == [false] + [false, false, false, false];
    CountTrueAppend([false], [false, false, false, false]);
    assert [false, false, false, false] == [false] + [false, false, false];
    CountTrueAppend([false], [false, false, false]);
    assert [false, false, false] == [false] + [false, false];
    CountTrueAppend([false], [false, false]);
    assert [false, false] == [false] + [false];
    CountTrueAppend([false], [false]);
  }

  /** The record createPriority stores: level 'medium' and no tags unless given; the due date only when given. */
  function NewPriorityRecord(id: string, userId: string, b: PriorityBody): (p: PriorityRecord)
    requires Given(b.text)
    ensures p.text == b.text.value && p.userId == userId
    ensures p.level == StringOr(b.level, "medium")
    ensures p.tags == (if b.tags.Some? then b.tags.value else [])
    ensures p.dueDate.Some? <==> Given(b.dueDate)
    ensures p.estimatedTime == b.estimatedTime && p.category == b.category
  {
    PriorityRecord(id, userId, b.text.value, StringOr(b.level, "medium"), b.estimatedTime, b.category,
                   if Given(b.dueDate) then b.dueDate else None,
                   if b.tags.Some? then b.tags.value else [])
  }

  /** A user's habit rows, in store order. */
  function HabitsOf(rows: seq<HabitRecord>, userId: string): (r: seq<HabitRecord>)
    ensures forall h :: h in r <==> h in rows && h.userId == userId
  {
    Filter(rows, (h: HabitRecord) => h.userId == userId)
  }

  /** A user's priority rows, in store order. */
  function PrioritiesOf(rows: seq<PriorityRecord>, userId: string): (r: seq<PriorityRecord>)
    ensures forall p :: p in r <==> p in rows && p.userId == userId
  {
    Filter(rows, (p: PriorityRecord) => p.userId == userId)
  }

  /** The database: users by email, with their ids, and the habit and priority rows. */
  class Store {
    var users: map<string, string>
    var habits: seq<HabitRecord>
    var priorities: seq<PriorityRecord>

    constructor ()
      ensures users == map[] && habits == [] && priorities == []
    {
      users := map[];
      habits := [];
      priorities := [];
    }

    /** getUserByEmail: the user's id, or None when the lookup fails or finds nobody. */
    function FindUser(email: string, f: Faults): Option<string>
      reads this
    {
      if f.lookupOk && email in users then Some(users[email]) else None
    }

    /**
     * GET /api/habits: 401 without an email; a user that cannot be found is
     * created (500 when that fails); 500 when the habits cannot be read;
     * otherwise the user's habits.
     */
    method GetHabits(email: Option<string>, f: Faults, newUserId: string) returns (resp: ApiResponse)
      modifies this
      ensures habits == old(habits) && priorities == old(priorities)
      ensures !Given(email) ==> resp == ApiResponse(401, ErrorBody("Unauthorized")) && users == old(users)
      ensures Given(email) && old(FindUser(email.value, f)).Some? ==> users == old(users)
      ensures Given(email) && old(FindUser(email.value, f)).None? && !f.createUserOk ==>
                resp == ApiResponse(500, ErrorBody("Failed to create user")) && users == old(users)
      ensures Given(email) && old(FindUser(email.value, f)).None? && f.createUserOk ==>
                users == old(users)[email.value := newUserId]
      ensures Given(email) && (old(FindUser(email.value, f)).Some? || f.createUserOk) ==>
                var uid := if old(FindUser(email.value, f)).Some? then old(FindUser(email.value, f)).value else newUserId;
                resp == if f.queryOk then ApiResponse(200, HabitList(HabitsOf(habits, uid)))
                        else ApiResponse(500, ErrorBody("Failed to fetch habits"))
    {
      if !Given(email) {
        return ApiResponse(401, ErrorBody("Unauthorized"));
      }
      var user := FindUser(email.value, f);
      var uid: string;
      if user.None? {
        if !f.createUserOk {
          return ApiResponse(500, ErrorBody("Failed to create user"));
        }
        users := users[email.value := newUserId];
        uid := newUserId;
      } else {
        uid := user.value;
      }
      if !f.queryOk {
        return ApiResponse(500, ErrorBody("Failed to fetch habits"));
      }
      resp := ApiResponse(200, HabitList(HabitsOf(habits, uid)));
    }

    /**
     * POST /api/habits: 401 without an email, 400 without a name (before the
     * user is looked up), 404 for an unknown user (who is not created here),
     * 500 when the insert fails, otherwise 201 with the new habit.
     */
    method PostHabit(email: Option<string>, b: HabitBody, f: Faults, newId: string) returns (resp: ApiResponse)
      modifies this
      ensures users == old(users) && priorities == old(priorities)
      ensures resp.status == 401 <==> !Given(email)
      ensures resp.status == 400 <==> Given(email) && !Given(b.name)
      ensures resp.status == 404 <==> Given(email) && Given(b.name) && old(FindUser(email.value, f)).None?
      ensures resp.status == 201 <==> Given(email) && Given(b.name) && old(FindUser(email.value, f)).Some? && f.insertOk
      ensures resp.status == 201 ==>
                var h := NewHabitRecord(newId, old(FindUser(email.value, f)).value, b);
                habits == old(habits) + [h] && resp.body == HabitCreated(h)
      ensures resp.status != 201 ==> habits == old(habits)
      ensures resp.status in {201, 400, 401, 404, 500}
    {
      if !Given(email) {
        return ApiResponse(401, ErrorBody("Unauthorized"));
      }
      if !Given(b.name) {
        return ApiResponse(400, ErrorBody("Name is required"));
      }
      var user := FindUser(email.value, f);
      if user.None? {
        return ApiResponse(404, ErrorBody("User not found"));
      }
      if !f.insertOk {
        return ApiResponse(500, ErrorBody("Failed to create habit"));
      }
      var h := NewHabitRecord(newId, user.value, b);
      habits := habits + [h];
      resp := ApiResponse(201, HabitCreated(h));
    }

    /** GET /api/priorities: 401 without an email, 404 for an unknown user, 500 when the read fails. */
    method GetPriorities(email: Option<string>, f: Faults) returns (resp: ApiResponse)
      ensures resp.status == 401 <==> !Given(email)
      ensures resp.status == 404 <==> Given(email) && FindUser(email.value, f).None?
      ensures resp.status == 500 <==> Given(email) && FindUser(email.value, f).Some? && !f.queryOk
      ensures resp.status == 200 ==> resp.body == PriorityList(PrioritiesOf(priorities, FindUser(email.value, f).value))
    {
      if !Given(email) {
        return ApiResponse(401, ErrorBody("Unauthorized"));
      }
      var user := FindUser(email.value, f);
      if user.None? {
        return ApiResponse(404, ErrorBody("User not found"));
      }
      if !f.queryOk {
        return ApiResponse(500, ErrorBody("Failed to fetch priorities"));
      }
      resp := ApiResponse(200, PriorityList(PrioritiesOf(priorities, user.value)));
    }

    /**
     * POST /api/priorities: 401 without an email, 400 without a text (before
     * the user lookup), 404 for an unknown user, 500 when the insert fails,
     * otherwise 201 with the new priority.
     */
    method PostPriority(email: Option<string>, b: PriorityBody, f: Faults, newId: string) returns (resp: ApiResponse)
      modifies this
      ensures users == old(users) && habits == old(habits)
      ensures resp.status == 401 <==> !Given(email)
      ensures resp.status == 400 <==> Given(email) && !Given(b.text)
      ensures resp.status == 404 <==> Given(email) && Given(b.text) && old(FindUser(email.value, f)).None?
      ensures resp.status == 201 <==> Given(email) && Given(b.text) && old(FindUser(email.value, f)).Some? && f.insertOk
      ensures resp.status == 201 ==>
                var p := NewPriorityRecord(newId, old(FindUser(email.value, f)).value, b);
                priorities == old(priorities) + [p] && resp.body == PriorityCreated(p)
      ensures resp.status != 201 ==> priorities == old(priorities)
      ensures resp.status in {201, 400, 401, 404, 500}
    {
      if !Given(email) {
        return ApiResponse(401, ErrorBody("Unauthorized"));
      }
      if !Given(b.text) {
        return ApiResponse(400, ErrorBody("Text is required"));
      }
      var user := FindUser(email.value, f);
      if user.None? {
        return ApiResponse(404, ErrorBody("User not found"));
      }
      if !f.insertOk {
        return ApiResponse(500, ErrorBody("Failed to create priority"));
      }
      var p := NewPriorityRecord(newId, user.value, b);
      priorities := priorities + [p];
      resp := ApiResponse(201, PriorityCreated(p));
    }
  }

  /**
   * A successful POST appends its habit to the rows, and a successful GET
   * lists the user's rows; so the next GET lists what it listed before,
   * followed by the posted habit, and nobody else's listing changes.
   */
  lemma PostedHabitIsListed(rows: seq<HabitRecord>, h: HabitRecord, userId: string)
    ensures HabitsOf(rows + [h], userId)
            == HabitsOf(rows, userId) + (if userId == h.userId then [h] else [])
  {
    FilterSnoc(rows, h, (x: HabitRecord) => x.userId == userId);
  }

  /** The same for a posted priority. */
  lemma PostedPriorityIsListed(rows: seq<PriorityRecord>, p: PriorityRecord, userId: string)
    ensures PrioritiesOf(rows + [p], userId)
            == PrioritiesOf(rows, userId) + (if userId == p.userId then [p] else [])
  {
    FilterSnoc(rows, p, (x: PriorityRecord) => x.userId == userId);
  }
}
