/**
 * The request handlers of the task and user API, reduced to what they do
 * to the two in-memory stores: each handler is a pure transition from the
 * old store to a reply and a new store (the *Spec functions), and the class
 * Server runs the same steps in place on its two fields.
 */
module Api {
  import opened Records
  import opened CheckEmailPass

  const StatusOk := 200
  const StatusCreated := 201
  const StatusBadRequest := 400
  const StatusForbidden := 403
  const StatusNotFound := 404
  const StatusConflict := 409

  datatype Option<T> = None | Some(value: T)

  /**
   * The status code of a reply and, on success, the record(s) or token it
   * carries besides the envelope's `code` and `message`.
   */
  datatype Response<T> = Success(code: int, value: T) | Failure(code: int)

  /** A handler's reply together with the store it leaves behind. */
  datatype Outcome<T, R> = Outcome(response: Response<T>, store: seq<R>)

  /** One element of the `tasks` array of a POST /tasks body; `task` is None when that field is missing. */
  datatype TaskInput = TaskInput(task: Option<string>)

  /** The user a successful registration sends back: everything but the password. */
  datatype PublicUser = PublicUser(id: string, name: string, email: string)

  // ---------------------------------------------------------------------
  // POST /tasks

  /** An element passes the batch check when its `task` name is present and non-empty. */
  predicate Named(t: TaskInput) {
    t.task.Some? && t.task.value != ""
  }

  predicate AllNamed(batch: seq<TaskInput>) {
    forall k :: 0 <= k < |batch| ==> Named(batch[k])
  }

  function TaskNames(batch: seq<TaskInput>): (names: seq<string>)
    requires AllNamed(batch)
  {
    seq(|batch|, k requires 0 <= k < |batch| => batch[k].task.value)
  }

  /**
   * The pushes of the batch insert, one name at a time: each new record's id
   * is one more than the length the store has reached at that push.  The
   * contract gives the closed form: the old records stay in front and the
   * i-th new one has id `oldLength + i + 1`.
   */
  function AppendBatch(tasks: seq<Task>, names: seq<string>): (r: seq<Task>)
    ensures |r| == |tasks| + |names|
    ensures r[..|tasks|] == tasks
    ensures forall i :: 0 <= i < |names| ==> r[|tasks| + i] == Task(NatToString(|tasks| + i + 1), names[i], false)
    decreases |names|
  {
    if names == [] then tasks
    else AppendBatch(tasks + [Task(NatToString(|tasks| + 1), names[0], false)], names[1..])
  }

  /**
   * POST /tasks.  A missing or empty batch, or a batch with any unnamed
   * element, is refused with 400 before anything is pushed, so a refusal
   * leaves the store as it was.  Otherwise the records are appended in input
   * order with sequential ids and `completed = false`, and the reply (201)
   * lists exactly the appended records.
   */
  function CreateTasksSpec(tasks: seq<Task>, batch: Option<seq<TaskInput>>): (o: Outcome<seq<Task>, Task>)
    ensures o.response.Success? <==> batch.Some? && |batch.value| > 0 && AllNamed(batch.value)
    ensures o.response.Failure? ==> o == Outcome(Failure(StatusBadRequest), tasks)
    ensures o.response.Success? ==>
      && o.response.code == StatusCreated
      && o.store == tasks + o.response.value
      && |o.response.value| == |batch.value|
      && forall i :: 0 <= i < |batch.value| ==>
           o.response.value[i] == Task(NatToString(|tasks| + i + 1), batch.value[i].task.value, false)
  {
    if batch.None? || |batch.value| == 0 then Outcome(Failure(StatusBadRequest), tasks)
    else if !AllNamed(batch.value) then Outcome(Failure(StatusBadRequest), tasks)
    else
      var names := TaskNames(batch.value);
      var store := AppendBatch(tasks, names);
      assert store == tasks + store[|tasks|..];
      assert forall i :: 0 <= i < |names| ==>
        store[|tasks|..][i] == Task(NatToString(|tasks| + i + 1), batch.value[i].task.value, false) by {
        forall i | 0 <= i < |names|
          ensures store[|tasks|..][i] == Task(NatToString(|tasks| + i + 1), batch.value[i].task.value, false)
        {
          assert names[i] == batch.value[i].task.value;
        }
      }
      Outcome(Success(StatusCreated, store[|tasks|..]), store)
  }

  // ---------------------------------------------------------------------
  // Looking a task up by id (PATCH and DELETE /tasks/:id)

  ghost predicate HasId(tasks: seq<Task>, id: string) {
    exists k :: 0 <= k < |tasks| && tasks[k].id == id
  }

  /** Position k holds the first record whose id is `id`. */
  predicate IsFirstMatch(tasks: seq<Task>, id: string, k: int) {
    0 <= k < |tasks| && tasks[k].id == id && forall j :: 0 <= j < k ==> tasks[j].id != id
  }

  /** `Array.prototype.findIndex` with the test `task.id === id`: the first match, or -1 when there is none. */
  function FindIndex(tasks: seq<Task>, id: string): (k: int)
    ensures k == -1 <==> !HasId(tasks, id)
    ensures k != -1 ==> IsFirstMatch(tasks, id, k)
    decreases |tasks|
  {
    if tasks == [] then -1
    else if tasks[0].id == id then 0
    else
      var k := FindIndex(tasks[1..], id);
      assert forall j :: 1 <= j < |tasks| ==> tasks[j] == tasks[1..][j - 1];
      if k == -1 then -1 else k + 1
  }

  // ---------------------------------------------------------------------
  // PATCH /tasks/:id

  /** `after` is `before` with only the `task` name of record k replaced. */
  predicate RenamedAt(before: seq<Task>, after: seq<Task>, k: int, newName: string) {
    && 0 <= k < |before|
    && |after| == |before|
    && after[k] == before[k].(task := newName)
    && forall j :: 0 <= j < |before| && j != k ==> after[j] == before[j]
  }

  /**
   * PATCH /tasks/:id.  An id no task has gives 404 and no change.
   * Otherwise only the name of the first task with that id changes (its id
   * and `completed` flag stay, every other record stays, the order stays),
   * and the reply (200) carries the updated record.
   */
  function RenameTaskSpec(tasks: seq<Task>, id: string, newName: string): (o: Outcome<Task, Task>)
    ensures o.response.Failure? <==> !HasId(tasks, id)
    ensures o.response.Failure? ==> o == Outcome(Failure(StatusNotFound), tasks)
    ensures o.response.Success? ==>
      && o.response.code == StatusOk
      && exists k :: IsFirstMatch(tasks, id, k) && RenamedAt(tasks, o.store, k, newName) && o.response.value == o.store[k]
  {
    var k := FindIndex(tasks, id);
    if k == -1 then Outcome(Failure(StatusNotFound), tasks)
    else
      var store := tasks[k := tasks[k].(task := newName)];
      Outcome(Success(StatusOk, store[k]), store)
  }

  // ---------------------------------------------------------------------
  // DELETE /tasks/:id

  /**
   * DELETE /tasks/:id.  An empty id gives 400 and an id no task has gives
   * 404, both without change.  Otherwise exactly the first task with that
   * id is spliced out: the store is one shorter, the rest keep their
   * relative order, and the reply (200) carries the removed record.
   */
  function DeleteTaskSpec(tasks: seq<Task>, id: string): (o: Outcome<Task, Task>)
    ensures o.response.Failure? <==> id == "" || !HasId(tasks, id)
    ensures id == "" ==> o == Outcome(Failure(StatusBadRequest), tasks)
    ensures id != "" && !HasId(tasks, id) ==> o == Outcome(Failure(StatusNotFound), tasks)
    ensures o.response.Success? ==>
      && o.response.code == StatusOk
      && |o.store| == |tasks| - 1
      && multiset(o.store) + multiset{o.response.value} == multiset(tasks)
      && exists k :: IsFirstMatch(tasks, id, k) && o.response.value == tasks[k] && o.store == tasks[..k] + tasks[k + 1..]
  {
    if id == "" then Outcome(Failure(StatusBadRequest), tasks)
    else
      var k := FindIndex(tasks, id);
      if k == -1 then Outcome(Failure(StatusNotFound), tasks)
      else
        assert tasks == tasks[..k] + [tasks[k]] + tasks[k + 1..];
        Outcome(Success(StatusOk, tasks[k]), tasks[..k] + tasks[k + 1..])
  }

  // ---------------------------------------------------------------------
  // POST /register

  /**
   * POST /register.  The checks run in a fixed order: an empty email or
   * password gives 400, then an email already in the store gives 409, then
   * a password that differs from its confirmation gives 400; each refusal
   * leaves the store as it was.  Otherwise one user with id
   * `oldLength + 1` is appended and the reply (201) shows it without the
   * password.
   */
  function RegisterSpec(users: seq<User>, name: string, email: string, password: string, confirmPassword: string)
    : (o: Outcome<PublicUser, User>)
    ensures o.response.Success? <==> email != "" && password != "" && !HasEmail(users, email) && password == confirmPassword
    ensures email == "" || password == "" ==> o == Outcome(Failure(StatusBadRequest), users)
    ensures email != "" && password != "" && HasEmail(users, email) ==> o == Outcome(Failure(StatusConflict), users)
    ensures email != "" && password != "" && !HasEmail(users, email) && password != confirmPassword ==>
      o == Outcome(Failure(StatusBadRequest), users)
    ensures o.response.Success? ==>
      && o.response == Success(StatusCreated, PublicUser(NatToString(|users| + 1), name, email))
      && o.store == users + [User(NatToString(|users| + 1), name, email, password)]
  {
    if email == "" || password == "" then Outcome(Failure(StatusBadRequest), users)
    else if EmailExists(users, email) then Outcome(Failure(StatusConflict), users)
    else if password != confirmPassword then Outcome(Failure(StatusBadRequest), users)
    else
      var userId := NatToString(|users| + 1);
      Outcome(Success(StatusCreated, PublicUser(userId, name, email)), users + [User(userId, name, email, password)])
  }

  // ---------------------------------------------------------------------
  // POST /login

  /**
   * POST /login, which never changes the store.  An empty email or password
   * gives 400, then an unknown email 404, then an email with no user whose
   * password also matches 403; otherwise 200 with the token the caller
   * supplies (the random source is outside the model).
   */
  function LoginSpec(users: seq<User>, email: string, password: string, token: string): (r: Response<string>)
    ensures email == "" || password == "" ==> r == Failure(StatusBadRequest)
    ensures email != "" && password != "" && !HasEmail(users, email) ==> r == Failure(StatusNotFound)
    ensures email != "" && password != "" && HasEmail(users, email) && !HasAccount(users, email, password) ==>
      r == Failure(StatusForbidden)
    ensures r.Success? <==> email != "" && password != "" && HasAccount(users, email, password)
    ensures r.Success? ==> r == Success(StatusOk, token)
  {
    if email == "" || password == "" then Failure(StatusBadRequest)
    else if !EmailExists(users, email) then Failure(StatusNotFound)
    else if !CheckUserCredentials(users, email, password) then Failure(StatusForbidden)
    else Success(StatusOk, token)
  }

  // ---------------------------------------------------------------------
  // The stores, updated in place

  /** The two module-level arrays every handler shares, seeded at start-up. */
  class Server {
    var taskList: seq<Task>
    var userList: seq<User>

    /** The seed lists are arbitrary: their contents are outside the model. */
    constructor (seedTasks: seq<Task>, seedUsers: seq<User>)
      ensures taskList == seedTasks && userList == seedUsers
    {
      taskList := seedTasks;
      userList := seedUsers;
    }

    /** POST /tasks: validate the whole batch, then push its records one by one. */
    method CreateTasks(batch: Option<seq<TaskInput>>) returns (r: Response<seq<Task>>)
      modifies this`taskList
      ensures Outcome(r, taskList) == CreateTasksSpec(old(taskList), batch)
    {
      if batch.None? || |batch.value| == 0 {
        return Failure(StatusBadRequest);
      }
      var tasks := batch.value;
      if !AllNamed(tasks) {
        return Failure(StatusBadRequest);
      }
      ghost var before := taskList;
      var addedTasks: seq<Task> := [];
      var i := 0;
      while i < |tasks|
        invariant 0 <= i <= |tasks|
        invariant |taskList| == |before| + i
        invariant taskList[..|before|] == before
        invariant forall k :: 0 <= k < i ==>
          taskList[|before| + k] == Task(NatToString(|before| + k + 1), tasks[k].task.value, false)
        invariant addedTasks == taskList[|before|..]
      {
        var newTask := Task(NatToString(|taskList| + 1), tasks[i].task.value, false);
        taskList := taskList + [newTask];
        addedTasks := addedTasks + [newTask];
        i := i + 1;
      }
      ghost var spec := AppendBatch(before, TaskNames(tasks));
      assert |taskList| == |spec|;
      assert forall k :: 0 <= k < |taskList| ==> taskList[k] == spec[k] by {
        forall k | 0 <= k < |taskList|
          ensures taskList[k] == spec[k]
        {
          if k < |before| {
            assert taskList[k] == taskList[..|before|][k];
            assert spec[k] == spec[..|before|][k];
          } else {
            var j := k - |before|;
            assert TaskNames(tasks)[j] == tasks[j].task.value;
            assert spec[|before| + j] == Task(NatToString(|before| + j + 1), tasks[j].task.value, false);
          }
        }
      }
      assert taskList == spec;
      r := Success(StatusCreated, addedTasks);
    }

    /** POST /register. */
    method Register(name: string, email: string, password: string, confirmPassword: string)
      returns (r: Response<PublicUser>)
      modifies this`userList
      ensures Outcome(r, userList) == RegisterSpec(old(userList), name, email, password, confirmPassword)
    {
      if email == "" || password == "" {
        return Failure(StatusBadRequest);
      }
      if EmailExists(userList, email) {
        return Failure(StatusConflict);
      }
      if password != confirmPassword {
        return Failure(StatusBadRequest);
      }
      var userId := NatToString(|userList| + 1);
      userList := userList + [User(userId, name, email, password)];
      r := Success(StatusCreated, PublicUser(userId, name, email));
    }

    /** POST /login: reads the user store and changes nothing. */
    method Login(email: string, password: string, token: string) returns (r: Response<string>)
      ensures r.Success? <==> email != "" && password != "" && HasAccount(userList, email, password)
      ensures r == LoginSpec(userList, email, password, token)
    {
      if email == "" || password == "" {
        return Failure(StatusBadRequest);
      }
      if !EmailExists(userList, email) {
        return Failure(StatusNotFound);
      }
      if !CheckUserCredentials(userList, email, password) {
        return Failure(StatusForbidden);
      }
      r := Success(StatusOk, token);
    }

    /** PATCH /tasks/:id: overwrite the name of the first matching task in place. */
    method RenameTask(id: string, newName: string) returns (r: Response<Task>)
      modifies this`taskList
      ensures Outcome(r, taskList) == RenameTaskSpec(old(taskList), id, newName)
    {
      var taskIndex := FindIndex(taskList, id);
      if taskIndex == -1 {
        return Failure(StatusNotFound);
      }
      taskList := taskList[taskIndex := taskList[taskIndex].(task := newName)];
      r := Success(StatusOk, taskList[taskIndex]);
    }

    /** DELETE /tasks/:id: splice out the first matching task. */
    method DeleteTask(id: string) returns (r: Response<Task>)
      modifies this`taskList
      ensures Outcome(r, taskList) == DeleteTaskSpec(old(taskList), id)
    {
      if id == "" {
        return Failure(StatusBadRequest);
      }
      var taskIndex := FindIndex(taskList, id);
      if taskIndex == -1 {
        return Failure(StatusNotFound);
      }
      var deletedTask := taskList[taskIndex];
      taskList := taskList[..taskIndex] + taskList[taskIndex + 1..];
      r := Success(StatusOk, deletedTask);
    }
  }
}
