/**
 * Properties that relate several handler calls, stated on the pure
 * transitions of module Api.
 */
module ApiProperties {
  import opened Records
  import opened CheckEmailPass
  import opened Api

  /** No two records share an id.  Not kept by the stores in general: see IdsCollideAfterDelete. */
  predicate UniqueIds(tasks: seq<Task>) {
    forall i, j :: 0 <= i < j < |tasks| ==> tasks[i].id != tasks[j].id
  }

  /** No two users share an email. */
  predicate UniqueEmails(users: seq<User>) {
    forall i, j :: 0 <= i < j < |users| ==> users[i].email != users[j].email
  }

  /** The records one successful batch creates carry pairwise different ids. */
  lemma BatchIdsDistinct(tasks: seq<Task>, batch: Option<seq<TaskInput>>)
    ensures var o := CreateTasksSpec(tasks, batch);
      o.response.Success? ==>
        forall i, j :: 0 <= i < j < |o.response.value| ==> o.response.value[i].id != o.response.value[j].id
  {
    var o := CreateTasksSpec(tasks, batch);
    if o.response.Success? {
      forall i, j | 0 <= i < j < |o.response.value|
        ensures o.response.value[i].id != o.response.value[j].id
      {
        NatToStringInjective(|tasks| + i + 1, |tasks| + j + 1);
      }
    }
  }

  /**
   * Ids come from the current length, so a create after a delete can reuse
   * an id that is still live: deleting "1" from ["1", "2"] and creating one
   * task gives a second record with id "2".
   */
  lemma IdsCollideAfterDelete(a: string, b: string, c: string)
    requires c != ""
    ensures var start := [Task("1", a, false), Task("2", b, false)];
      var afterDelete := DeleteTaskSpec(start, "1");
      var afterCreate := CreateTasksSpec(afterDelete.store, Some([TaskInput(Some(c))]));
      && UniqueIds(start)
      && afterDelete.response.Success?
      && afterCreate.response.Success?
      && afterCreate.store == [Task("2", b, false), Task("2", c, false)]
      && !UniqueIds(afterCreate.store)
  {
  }

  /** Deleting keeps ids unique when they were. */
  lemma DeleteKeepsIdsUnique(tasks: seq<Task>, id: string)
    requires UniqueIds(tasks)
    ensures UniqueIds(DeleteTaskSpec(tasks, id).store)
  {
  }

  /**
   * With unique ids, a second delete of the same id finds nothing: 404 (or
   * 400 again for the empty id), and the store is left as the first delete
   * left it.
   */
  lemma DeleteTwiceNotFound(tasks: seq<Task>, id: string)
    requires UniqueIds(tasks)
    ensures var first := DeleteTaskSpec(tasks, id);
      var second := DeleteTaskSpec(first.store, id);
      && second.response == Failure(if id == "" then StatusBadRequest else StatusNotFound)
      && second.store == first.store
  {
  }

  /** Renaming changes no id, so unique ids stay unique. */
  lemma RenameKeepsIdsUnique(tasks: seq<Task>, id: string, newName: string)
    requires UniqueIds(tasks)
    ensures UniqueIds(RenameTaskSpec(tasks, id, newName).store)
  {
  }

  /** Renaming the same task to the same name twice is the same as renaming it once. */
  lemma RenameIdempotent(tasks: seq<Task>, id: string, newName: string)
    ensures var first := RenameTaskSpec(tasks, id, newName);
      RenameTaskSpec(first.store, id, newName) == first
  {
  }

  /** Registration keeps emails unique when they were: it refuses any email already present. */
  lemma RegisterKeepsEmailsUnique(users: seq<User>, name: string, email: string, password: string, confirmPassword: string)
    requires UniqueEmails(users)
    ensures UniqueEmails(RegisterSpec(users, name, email, password, confirmPassword).store)
  {
  }

  /**
   * After a successful registration, registering the same email again is a
   * conflict whatever the other fields say, as long as the password is not
   * empty (the emptiness check runs first).
   */
  lemma RegisterTwiceConflicts(users: seq<User>, name: string, email: string, password: string, confirmPassword: string,
                               name2: string, password2: string, confirmPassword2: string)
    requires RegisterSpec(users, name, email, password, confirmPassword).response.Success?
    requires password2 != ""
    ensures var store := RegisterSpec(users, name, email, password, confirmPassword).store;
      RegisterSpec(store, name2, email, password2, confirmPassword2) == Outcome(Failure(StatusConflict), store)
  {
    var store := RegisterSpec(users, name, email, password, confirmPassword).store;
    assert store[|users|].email == email;
  }

  /** A user who has just registered can log in with the same email and password. */
  lemma RegisterThenLogin(users: seq<User>, name: string, email: string, password: string, confirmPassword: string,
                          token: string)
    requires RegisterSpec(users, name, email, password, confirmPassword).response.Success?
    ensures var store := RegisterSpec(users, name, email, password, confirmPassword).store;
      LoginSpec(store, email, password, token) == Success(StatusOk, token)
  {
    var store := RegisterSpec(users, name, email, password, confirmPassword).store;
    assert store[|users|].email == email && store[|users|].password == password;
  }

  /**
   * With unique emails, a registered email with the wrong password is
   * refused with 403.
   */
  lemma LoginWrongPasswordForbidden(users: seq<User>, k: nat, password: string, token: string)
    requires UniqueEmails(users)
    requires k < |users| && users[k].email != ""
    requires password != "" && password != users[k].password
    ensures LoginSpec(users, users[k].email, password, token) == Failure(StatusForbidden)
  {
  }
}
