/**
 * The in-memory session store: a map from user name to that user's sessions,
 * in the order they were logged. The pure functions say what each operation
 * makes of the map; class `SessionStore` holds the map and changes it in
 * place the way `register_user`, `log_study_session` and
 * `edit_or_delete_session` change the shared `users` dictionary.
 */
module Store {
  import opened Clock
  import opened Text
  import opened Wrappers

  /** One logged study session: when it was logged, the subject, and the duration as typed. */
  datatype Session = Session(date: Timestamp, subject: string, duration: string)

  /** The store: user name to the user's record, whose one field is the session list. */
  type Users = map<string, seq<Session>>

  /** What the user typed at the prompts of one menu action; each action reads only the answers it asks for. */
  datatype Answers = Answers(subject: string, duration: string, action: string, number: int, confirm: string)

  /** One line of the numbered listing: the 1-based position and the session shown there. */
  datatype Listed = Listed(position: int, session: Session)

  /**
   * Where `edit_or_delete_session` stopped. Each value but `Declined` stands
   * for the message printed there; a declined edit or delete prints nothing.
   */
  datatype Outcome = NoSessions | NoChanges | InvalidOption | InvalidNumber | Declined | Updated | Deleted

  datatype EditResult = EditResult(users: Users, outcome: Outcome)

  /** `users.get(name, {}).get('sessions', [])`: an unknown user has no sessions. */
  function SessionsOf(users: Users, name: string): seq<Session>
  {
    if name in users then users[name] else []
  }

  /** What `view_study_sessions` returns: whether there is anything to list. */
  predicate HasSessions(users: Users, name: string)
    ensures HasSessions(users, name) <==> name in users && |users[name]| > 0
  {
    SessionsOf(users, name) != []
  }

  /** The store after `register_user` was given `name`. */
  function Registered(users: Users, name: string): (r: Users)
    ensures name in users ==> r == users
    ensures r.Keys == users.Keys + {name}
    ensures name !in users ==> r[name] == []
    ensures forall u :: u in users ==> r[u] == users[u]
  {
    if name in users then users else users[name := []]
  }

  /** The store after `log_study_session` appended `s` to `name`'s sessions. */
  function Logged(users: Users, name: string, s: Session): (r: Users)
    requires name in users
    ensures r.Keys == users.Keys
    ensures |r[name]| == |users[name]| + 1
    ensures r[name][..|users[name]|] == users[name] && r[name][|users[name]|] == s
    ensures forall u :: u in users && u != name ==> r[u] == users[u]
  {
    users[name := users[name] + [s]]
  }

  /** The 0-based position a typed 1-based session number selects among `count` sessions, if any. */
  function SessionIndex(number: int, count: int): (r: Option<nat>)
    ensures r.Some? <==> 1 <= number <= count
    ensures r.Some? ==> r.value + 1 == number && r.value < count
  {
    var index := number - 1;
    if index < 0 || index >= count then None else Some(index)
  }

  /** `del ss[i]`: the element at `i` goes, those after it move down one place. */
  function RemoveAt<T>(ss: seq<T>, i: nat): (r: seq<T>)
    requires i < |ss|
    ensures |r| == |ss| - 1
    ensures forall j :: 0 <= j < i ==> r[j] == ss[j]
    ensures forall j :: i <= j < |r| ==> r[j] == ss[j + 1]
  {
    ss[..i] + ss[i + 1..]
  }

  /** The store and the message after `edit_or_delete_session` with the answers `a`, at time `now`. */
  function EditOrDeleteResult(users: Users, name: string, a: Answers, now: Timestamp): (r: EditResult)
    ensures r.users.Keys == users.Keys
    ensures forall u :: u in users && u != name ==> r.users[u] == users[u]
    ensures r.outcome == NoSessions <==> !HasSessions(users, name)
    ensures r.outcome == NoChanges <==> HasSessions(users, name) && Lower(a.action) == "no"
    ensures r.outcome == InvalidOption <==>
      HasSessions(users, name) && Lower(a.action) !in {"edit", "delete", "no"}
    ensures r.outcome == InvalidNumber <==>
      HasSessions(users, name) && Lower(a.action) in {"edit", "delete"}
      && !(1 <= a.number <= |users[name]|)
    ensures r.outcome == Declined <==>
      HasSessions(users, name) && Lower(a.action) in {"edit", "delete"}
      && 1 <= a.number <= |users[name]| && !IsYes(a.confirm)
    ensures r.outcome == Updated <==>
      HasSessions(users, name) && Lower(a.action) == "edit"
      && 1 <= a.number <= |users[name]| && IsYes(a.confirm)
    ensures r.outcome == Deleted <==>
      HasSessions(users, name) && Lower(a.action) == "delete"
      && 1 <= a.number <= |users[name]| && IsYes(a.confirm)
    ensures r.outcome != Updated && r.outcome != Deleted ==> r.users == users
    ensures r.outcome == Updated ==>
      |r.users[name]| == |users[name]|
      && r.users[name][a.number - 1] == Session(now, a.subject, a.duration)
      && forall j :: 0 <= j < |users[name]| && j != a.number - 1 ==> r.users[name][j] == users[name][j]
    ensures r.outcome == Deleted ==> r.users[name] == RemoveAt(users[name], a.number - 1)
  {
    if !HasSessions(users, name) then EditResult(users, NoSessions)
    else
      var action := Lower(a.action);
      if action == "edit" || action == "delete" then
        match SessionIndex(a.number, |users[name]|)
        case None => EditResult(users, InvalidNumber)
        case Some(i) =>
          if !IsYes(a.confirm) then EditResult(users, Declined)
          else if action == "edit" then
            EditResult(users[name := users[name][i := Session(now, a.subject, a.duration)]], Updated)
          else
            EditResult(users[name := RemoveAt(users[name], i)], Deleted)
      else if action == "no" then EditResult(users, NoChanges)
      else EditResult(users, InvalidOption)
  }

  /** Deleting the only session of a user leaves that user with nothing to list. */
  lemma DeleteLastLeavesNothing(users: Users, name: string, a: Answers, now: Timestamp)
    requires name in users && |users[name]| == 1
    requires Lower(a.action) == "delete" && a.number == 1 && IsYes(a.confirm)
    ensures !HasSessions(EditOrDeleteResult(users, name, a, now).users, name)
  {
  }

  /** Logging makes a user's sessions listable, and the new session is listed last. */
  lemma LoggedIsListed(users: Users, name: string, s: Session)
    requires name in users
    ensures HasSessions(Logged(users, name, s), name)
    ensures SessionsOf(Logged(users, name, s), name)[|users[name]|] == s
  {
  }

  /**
   * The shared `users` dictionary. Each method changes `users` exactly as the
   * matching function above says and leaves nothing else touched.
   */
  class SessionStore {
    var users: Users

    /** The store as `load_data` produced it. */
    constructor (loaded: Users)
      ensures users == loaded
    {
      users := loaded;
    }

    /** `register_user`: adds an empty record for a new name and returns the name it was given either way. */
    method Register(name: string) returns (registered: string)
      modifies this
      ensures registered == name
      ensures users == Registered(old(users), name)
    {
      if name !in users {
        users := users[name := []];
      }
      registered := name;
    }

    /** `log_study_session`: appends a session logged at `now`. */
    method Log(name: string, subject: string, duration: string, now: Timestamp)
      requires name in users
      modifies this
      ensures users == Logged(old(users), name, Session(now, subject, duration))
    {
      var session := Session(now, subject, duration);
      users := users[name := users[name] + [session]];
    }

    /**
     * `view_study_sessions`: whether the user has sessions, and the numbered
     * listing it prints, counting from 1 in stored order.
     */
    method View(name: string) returns (found: bool, listing: seq<Listed>)
      ensures found <==> HasSessions(users, name)
      ensures |listing| == |SessionsOf(users, name)|
      ensures forall i :: 0 <= i < |listing| ==> listing[i] == Listed(i + 1, SessionsOf(users, name)[i])
    {
      var sessions := SessionsOf(users, name);
      if sessions == [] {
        return false, [];
      }
      listing := [];
      var index := 0;
      while index < |sessions|
        invariant 0 <= index <= |sessions|
        invariant |listing| == index
        invariant forall i :: 0 <= i < index ==> listing[i] == Listed(i + 1, sessions[i])
      {
        listing := listing + [Listed(index + 1, sessions[index])];
        index := index + 1;
      }
      found := true;
    }

    /** `edit_or_delete_session` with the answers `a` typed at its prompts and the clock reading `now`. */
    method EditOrDelete(name: string, a: Answers, now: Timestamp) returns (outcome: Outcome)
      modifies this
      ensures EditResult(users, outcome) == EditOrDeleteResult(old(users), name, a, now)
    {
      var found, listing := View(name);
      if !found {
        return NoSessions;
      }
      var action := Lower(a.action);
      if action == "edit" || action == "delete" {
        var index := a.number - 1;
        if index < 0 || index >= |users[name]| {
          return InvalidNumber;
        }
        if !IsYes(a.confirm) {
          outcome := Declined;
        } else if action == "edit" {
          users := users[name := users[name][index := Session(now, a.subject, a.duration)]];
          outcome := Updated;
        } else {
          users := users[name := RemoveAt(users[name], index)];
          outcome := Deleted;
        }
      } else if action == "no" {
        outcome := NoChanges;
      } else {
        outcome := InvalidOption;
      }
    }
  }
}
