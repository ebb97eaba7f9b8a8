/**
 * `main_menu`: the identity check at entry, then a loop that reads a choice,
 * runs the matching action on the store and comes back, until the exit
 * choice is confirmed. Typed lines become a script of turns; the clock and
 * the duration parser become parameters.
 */
module Menu {
  import opened Clock
  import opened Text
  import opened Wrappers
  import opened Store
  import opened Week

  /** One pass through the loop: the choice, the answers to the prompts it raises, and the clock reading. */
  datatype Turn = Turn(choice: string, answers: Answers, now: Timestamp)

  /** What a turn does to the loop: go round again, leave it, or end the program with an uncaught error. */
  datatype Verdict = Continue | Exit | Crash

  datatype StepResult = StepResult(users: Users, verdict: Verdict)

  /** How a run of the loop over a script ends. */
  datatype Ending = Exited | Crashed | OutOfInput

  datatype RunResult = RunResult(users: Users, ending: Ending, turns: nat)

  /** Where the entry prompt leads: out of the program, or into the menu as `user`. */
  datatype Entry = NotFound | Entered(users: Users, user: string)

  /** The token that asks for registration at the entry prompt. */
  const NewToken: string := "new"

  /** Choice 7 answered with a confirming reply. */
  predicate ConfirmedExit(t: Turn)
  {
    t.choice == "7" && IsYes(t.answers.confirm)
  }

  /** The entry prompt: `new` registers `registerName`, a known name enters as itself, anything else stops. */
  function Enter(users: Users, token: string, registerName: string): (e: Entry)
    ensures e.NotFound? <==> token != NewToken && token !in users
    ensures e.Entered? ==> e.user in e.users
    ensures e.Entered? ==> forall u :: u in users ==> u in e.users && e.users[u] == users[u]
    ensures e.Entered? && token == NewToken ==> e.user == registerName && e.users.Keys == users.Keys + {registerName}
    ensures e.Entered? && token != NewToken ==> e.user == token && e.users == users
  {
    if token == NewToken then Entered(Registered(users, registerName), registerName)
    else if token !in users then NotFound
    else Entered(users, token)
  }

  /** One turn of the loop for the signed-in `user`. */
  function Step(users: Users, user: string, t: Turn, parse: string -> Option<real>): (r: StepResult)
    requires user in users
    ensures r.users.Keys == users.Keys
    ensures forall u :: u in users && u != user ==> r.users[u] == users[u]
    ensures r.verdict == Exit <==> ConfirmedExit(t)
    ensures r.verdict == Crash <==> t.choice == "4" && WeeklyTotal(users[user], t.now, parse).Failure?
    ensures t.choice != "1" && t.choice != "3" ==> r.users == users
    ensures t.choice == "1" ==> |r.users[user]| == |users[user]| + 1
  {
    if t.choice == "1" then
      StepResult(Logged(users, user, Session(t.now, t.answers.subject, t.answers.duration)), Continue)
    else if t.choice == "3" then
      StepResult(EditOrDeleteResult(users, user, t.answers, t.now).users, Continue)
    else if t.choice == "4" && WeeklyTotal(users[user], t.now, parse).Failure? then
      StepResult(users, Crash)
    else if ConfirmedExit(t) then
      StepResult(users, Exit)
    else
      StepResult(users, Continue)
  }

  /**
   * The loop run over `script` until a turn leaves it or the script is used
   * up; `turns` counts the turns read. Only a confirmed choice 7 leaves the
   * loop normally, and the loop leaves at the first one.
   */
  function Run(users: Users, user: string, script: seq<Turn>, parse: string -> Option<real>): (r: RunResult)
    requires user in users
    ensures user in r.users && r.users.Keys == users.Keys
    ensures forall u :: u in users && u != user ==> r.users[u] == users[u]
    ensures r.turns <= |script|
    ensures r.ending == OutOfInput ==> r.turns == |script|
    ensures r.ending != OutOfInput ==> 0 < r.turns
    ensures r.ending == Exited ==> ConfirmedExit(script[r.turns - 1])
    ensures r.ending == Crashed ==> script[r.turns - 1].choice == "4"
    ensures forall i :: 0 <= i < r.turns - 1 ==> !ConfirmedExit(script[i])
    ensures r.ending == OutOfInput ==> forall i :: 0 <= i < |script| ==> !ConfirmedExit(script[i])
    decreases |script|
  {
    if script == [] then RunResult(users, OutOfInput, 0)
    else
      var s := Step(users, user, script[0], parse);
      match s.verdict
      case Exit => RunResult(s.users, Exited, 1)
      case Crash => RunResult(s.users, Crashed, 1)
      case Continue =>
        var rest := Run(s.users, user, script[1..], parse);
        assert forall i :: 0 < i < |script| ==> script[i] == script[1..][i - 1];
        RunResult(rest.users, rest.ending, rest.turns + 1)
  }

  /** Without a weekly total to fail, the loop is left exactly when the script holds a confirmed exit. */
  lemma ExitsIffConfirmed(users: Users, user: string, script: seq<Turn>, parse: string -> Option<real>)
    requires user in users
    requires forall i :: 0 <= i < |script| ==> script[i].choice != "4"
    ensures Run(users, user, script, parse).ending == Exited <==>
      exists i :: 0 <= i < |script| && ConfirmedExit(script[i])
  {
  }

  /** A whole visit, entry and loop, touches no one's sessions but the signed-in user's and drops no user. */
  lemma {:induction false} VisitTouchesOnlyItsUser(users: Users, token: string, registerName: string, script: seq<Turn>, parse: string -> Option<real>)
    requires Enter(users, token, registerName).Entered?
    ensures var e := Enter(users, token, registerName);
      var r := Run(e.users, e.user, script, parse);
      users.Keys <= r.users.Keys
      && forall u :: u in users && u != e.user ==> r.users[u] == users[u]
  {
  }

  /** One pass through the loop body of `main_menu`: dispatch on the choice and run the action on the store. */
  method PlayTurn(store: SessionStore, user: string, t: Turn, parse: string -> Option<real>) returns (verdict: Verdict)
    requires user in store.users
    modifies store
    ensures StepResult(store.users, verdict) == Step(old(store.users), user, t, parse)
  {
    verdict := Continue;
    if t.choice == "1" {
      store.Log(user, t.answers.subject, t.answers.duration, t.now);
    } else if t.choice == "2" {
      var found, listing := store.View(user);
    } else if t.choice == "3" {
      var outcome := store.EditOrDelete(user, t.answers, t.now);
    } else if t.choice == "4" {
      var total := WeeklyTotal(store.users[user], t.now, parse);
      if total.Failure? {
        verdict := Crash;
      }
    } else if t.choice == "7" {
      if IsYes(t.answers.confirm) {
        verdict := Exit;
      }
    }
  }

  /** The `while True` loop of `main_menu` for the signed-in `user`, reading its turns from `script`. */
  method MenuLoop(store: SessionStore, user: string, script: seq<Turn>, parse: string -> Option<real>) returns (ending: Ending)
    requires user in store.users
    modifies store
    ensures var r := Run(old(store.users), user, script, parse);
      store.users == r.users && ending == r.ending
  {
    ghost var whole := Run(store.users, user, script, parse);
    ending := OutOfInput;
    var i := 0;
    while i < |script|
      invariant 0 <= i <= |script|
      invariant user in store.users
      invariant Run(store.users, user, script[i..], parse).users == whole.users
      invariant Run(store.users, user, script[i..], parse).ending == whole.ending
      decreases |script| - i
    {
      ghost var before := store.users;
      assert script[i..][0] == script[i] && script[i..][1..] == script[i + 1..];
      var verdict := PlayTurn(store, user, script[i], parse);
      if verdict != Continue {
        ending := if verdict == Exit then Exited else Crashed;
        assert Run(before, user, script[i..], parse) == RunResult(store.users, ending, 1);
        return;
      }
      i := i + 1;
    }
    assert script[i..] == [];
  }

  /**
   * `main_menu` on the loaded store: the entry prompt answered with `token`
   * (and `registerName` if it asked to register), then the loop over
   * `script`. The store ends as `Run` says; an unknown name leaves it alone.
   */
  method MainMenu(store: SessionStore, token: string, registerName: string, script: seq<Turn>, parse: string -> Option<real>)
    returns (entered: bool, ending: Ending)
    modifies store
    ensures entered <==> Enter(old(store.users), token, registerName).Entered?
    ensures !entered ==> store.users == old(store.users)
    ensures entered ==>
      var e := Enter(old(store.users), token, registerName);
      var r := Run(e.users, e.user, script, parse);
      store.users == r.users && ending == r.ending
  {
    var user := token;
    if token == NewToken {
      user := store.Register(registerName);
    } else if token !in store.users {
      return false, OutOfInput;
    }
    entered := true;
    ending := MenuLoop(store, user, script, parse);
  }
}
