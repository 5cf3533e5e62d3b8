/**
 * A stand-in for the Robot service that the resource handlers talk to. It
 * keeps one `Server` record per id, logs every call in order, and fails the
 * call made at a given log position when its `Behaviour` says so. A call on
 * an unknown id fails with a not-found error. A rename stores and answers
 * with the requested name unless the `Behaviour` gives another one for its
 * log position, so nothing in the model relies on the name being echoed.
 *
 * The behaviour of this stand-in (a rename answers with the stored record,
 * enabling rescue mode records the OS, a fetch returns the stored record) is
 * an assumption of the model, not a promise of the client code.
 */
module FakeRobot {
  import opened Wrappers
  import opened HttpClient
  import opened ServerApi

  const NotFound: Error := HttpStatus(404, Some("server not found"))

  /** The stored records and every call made so far, in order. */
  datatype State = State(servers: map<string, Server>, log: seq<Call>)

  /** Where the service departs from the plain behaviour, by log position:
      the call made at a position in `failures` fails with that error, and a
      rename made at a position in `renames` stores that name instead of the
      requested one. */
  datatype Behaviour = Behaviour(failures: map<nat, Error>, renames: map<nat, string>)

  /** The name a rename made at log position `at` stores and answers with. */
  function NameAfter(b: Behaviour, at: nat, requested: string): (name: string)
    ensures at !in b.renames ==> name == requested
  {
    if at in b.renames then b.renames[at] else requested
  }

  /** Why the call `c`, made next from `st`, fails: the error injected at
      its log position, else not-found for an unknown id; `None` if it
      succeeds. */
  function Refusal(b: Behaviour, st: State, c: Call): (e: Option<Error>)
    ensures e.None? ==> c.List? || c.id in st.servers
    ensures |st.log| in b.failures ==> e == Some(b.failures[|st.log|])
  {
    if |st.log| in b.failures then Some(b.failures[|st.log|])
    else if c.List? || c.id in st.servers then None
    else Some(NotFound)
  }

  /** What a successful call does to the stored records. */
  function Effect(b: Behaviour, st: State, c: Call): (r: map<string, Server>)
    ensures r.Keys == st.servers.Keys
    ensures forall id | id in r :: r[id].id == st.servers[id].id
    ensures !c.Update? ==> forall id | id in r :: r[id].name == st.servers[id].name
  {
    var servers := st.servers;
    match c
    case Update(id, name) =>
      if id in servers then servers[id := servers[id].(name := NameAfter(b, |st.log|, name))] else servers
    case EnableRescue(id, o) =>
      if id in servers then servers[id := servers[id].(rescueOS := o.os)] else servers
    case DisableRescue(id) =>
      if id in servers then servers[id := servers[id].(rescueOS := "")] else servers
    case _ => servers
  }

  /** The state after making the call `c`: it is logged, and its effect
      applies only if it succeeds. */
  function Perform(b: Behaviour, st: State, c: Call): State {
    State(if Refusal(b, st, c).Some? then st.servers else Effect(b, st, c), st.log + [c])
  }

  /** A call that failed, and its error. */
  datatype Halt = Halt(call: Call, error: Error)

  /** Where a run of calls ended: the state, and the failure that stopped it. */
  datatype Finish = Finish(state: State, halt: Option<Halt>)

  /** One call: the state after it, and its failure if it fails. */
  function Step(b: Behaviour, st: State, c: Call): Finish {
    var e := Refusal(b, st, c);
    Finish(Perform(b, st, c), if e.Some? then Some(Halt(c, e.value)) else None)
  }

  /** Makes the calls of `script` in order until one fails; a failed call
      is one of the script's. */
  function Execute(b: Behaviour, st: State, script: seq<Call>): (r: Finish)
    ensures r.halt.Some? ==> r.halt.value.call in script
    decreases |script|
  {
    if script == [] then Finish(st, None)
    else
      var next := Step(b, st, script[0]);
      if next.halt.Some? then next
      else Execute(b, next.state, script[1..])
  }

  /** A run never adds or removes a stored id. */
  lemma {:induction false} ExecuteKeepsIds(b: Behaviour, st: State, script: seq<Call>)
    ensures Execute(b, st, script).state.servers.Keys == st.servers.Keys
    decreases |script|
  {
    if script != [] && Step(b, st, script[0]).halt.None? {
      ExecuteKeepsIds(b, Step(b, st, script[0]).state, script[1..]);
    }
  }

  /** A run without a rename leaves every stored name as it was. */
  lemma {:induction false} ExecuteKeepsNames(b: Behaviour, st: State, script: seq<Call>)
    requires forall c | c in script :: !c.Update?
    ensures forall id | id in st.servers ::
      id in Execute(b, st, script).state.servers &&
      Execute(b, st, script).state.servers[id].name == st.servers[id].name
    decreases |script|
  {
    if script != [] && Step(b, st, script[0]).halt.None? {
      assert script[0] in script;
      ExecuteKeepsNames(b, Step(b, st, script[0]).state, script[1..]);
    }
  }

  /** A run that starts with a rename and makes no other one leaves the
      renamed server with the rename's answer. */
  lemma ExecuteRenameFirst(b: Behaviour, st: State, id: string, name: string, rest: seq<Call>)
    requires id in st.servers
    requires forall c | c in rest :: !c.Update?
    requires Execute(b, st, [Update(id, name)] + rest).halt.None?
    ensures id in Execute(b, st, [Update(id, name)] + rest).state.servers
    ensures Execute(b, st, [Update(id, name)] + rest).state.servers[id].name == NameAfter(b, |st.log|, name)
  {
    var u := Update(id, name);
    ExecuteConcat(b, st, [u], rest);
    var one := Execute(b, st, [u]);
    assert one == Step(b, st, u);
    ExecuteKeepsNames(b, one.state, rest);
  }

  /**
   * The calls a run makes are a prefix of the script, appended to the log:
   * all of it when none fails, and up to the failing call, which is the last
   * one logged, when one does.
   */
  lemma {:induction false} ExecuteLog(b: Behaviour, st: State, script: seq<Call>)
    ensures exists n | 0 <= n <= |script| :: Execute(b, st, script).state.log == st.log + script[..n]
    ensures Execute(b, st, script).halt.None? ==> Execute(b, st, script).state.log == st.log + script
    ensures Execute(b, st, script).halt.Some? ==>
      var log := Execute(b, st, script).state.log;
      |log| > |st.log| && Execute(b, st, script).halt.value.call == log[|log| - 1]
    decreases |script|
  {
    var r := Execute(b, st, script);
    if script == [] {
      assert r.state.log == st.log + script[..0];
    } else {
      var next := Step(b, st, script[0]);
      if next.halt.Some? {
        assert r.state.log == st.log + script[..1];
      } else {
        ExecuteLog(b, next.state, script[1..]);
        var n :| 0 <= n <= |script[1..]| && r.state.log == next.state.log + script[1..][..n];
        assert script[..n + 1] == [script[0]] + script[1..][..n];
        assert r.state.log == st.log + script[..n + 1];
        if r.halt.None? {
          assert script == [script[0]] + script[1..];
        }
      }
    }
  }

  /** Running one more call after a run that did not fail is one more step. */
  lemma {:induction false} ExecuteSnoc(b: Behaviour, st: State, done: seq<Call>, c: Call)
    requires Execute(b, st, done).halt.None?
    ensures Execute(b, st, done + [c]) == Step(b, Execute(b, st, done).state, c)
    decreases |done|
  {
    if done == [] {
      assert [] + [c] == [c];
      assert Execute(b, Step(b, st, c).state, []) == Finish(Step(b, st, c).state, None);
    } else {
      assert (done + [c])[0] == done[0];
      assert (done + [c])[1..] == done[1..] + [c];
      ExecuteSnoc(b, Step(b, st, done[0]).state, done[1..], c);
    }
  }

  /** Nothing is called after a failure. */
  lemma {:induction false} ExecuteStops(b: Behaviour, st: State, done: seq<Call>, rest: seq<Call>)
    requires Execute(b, st, done).halt.Some?
    ensures Execute(b, st, done + rest) == Execute(b, st, done)
    decreases |done|
  {
    assert done != [];
    assert (done + rest)[0] == done[0];
    assert (done + rest)[1..] == done[1..] + rest;
    if Step(b, st, done[0]).halt.None? {
      ExecuteStops(b, Step(b, st, done[0]).state, done[1..], rest);
    }
  }

  /** A run of `first + second` is a run of `first`, then, unless `first` failed, a run of `second`. */
  lemma {:induction false} ExecuteConcat(b: Behaviour, st: State, first: seq<Call>, second: seq<Call>)
    ensures Execute(b, st, first + second) ==
      var f := Execute(b, st, first);
      if f.halt.Some? then f else Execute(b, f.state, second)
    decreases |first|
  {
    if first == [] {
      assert first + second == second;
    } else {
      assert (first + second)[0] == first[0];
      assert (first + second)[1..] == first[1..] + second;
      if Step(b, st, first[0]).halt.None? {
        ExecuteConcat(b, Step(b, st, first[0]).state, first[1..], second);
      }
    }
  }

  class Robot {
    var servers: map<string, Server>
    var log: seq<Call>
    const behaviour: Behaviour

    /** Each record is stored under its own id. */
    ghost predicate Valid()
      reads this
    {
      forall id | id in servers :: servers[id].id == id
    }

    /** The whole state, as one value. */
    function Now(): State
      reads this
    {
      State(servers, log)
    }

    constructor (servers: map<string, Server>, behaviour: Behaviour)
      requires forall id | id in servers :: servers[id].id == id
      ensures Valid()
      ensures this.servers == servers && this.behaviour == behaviour && log == []
    {
      this.servers := servers;
      this.behaviour := behaviour;
      log := [];
    }

    method GetServer(id: string) returns (r: Result<Server, Error>)
      requires Valid()
      modifies this
      ensures Valid() && Now() == Perform(behaviour, old(Now()), Get(id))
      ensures var e := Refusal(behaviour, old(Now()), Get(id));
        r == if e.Some? then Failure(e.value) else Success(servers[id])
    {
      var e := Refusal(behaviour, Now(), Get(id));
      log := log + [Get(id)];
      if e.Some? {
        return Failure(e.value);
      }
      r := Success(servers[id]);
    }

    method UpdateServer(id: string, name: string) returns (r: Result<Server, Error>)
      requires Valid()
      modifies this
      ensures Valid() && Now() == Perform(behaviour, old(Now()), Update(id, name))
      ensures var e := Refusal(behaviour, old(Now()), Update(id, name));
        r == if e.Some? then Failure(e.value) else Success(servers[id])
    {
      var e := Refusal(behaviour, Now(), Update(id, name));
      var stored := NameAfter(behaviour, |log|, name);
      log := log + [Update(id, name)];
      if e.Some? {
        return Failure(e.value);
      }
      servers := servers[id := servers[id].(name := stored)];
      r := Success(servers[id]);
    }

    method EnableRescueMode(id: string, options: ServerRescueOptions) returns (err: Option<Error>)
      requires Valid()
      modifies this
      ensures Valid() && Now() == Perform(behaviour, old(Now()), EnableRescue(id, options))
      ensures err == Refusal(behaviour, old(Now()), EnableRescue(id, options))
    {
      err := Refusal(behaviour, Now(), EnableRescue(id, options));
      log := log + [EnableRescue(id, options)];
      if err.None? {
        servers := servers[id := servers[id].(rescueOS := options.os)];
      }
    }

    method DisableRescueMode(id: string) returns (err: Option<Error>)
      requires Valid()
      modifies this
      ensures Valid() && Now() == Perform(behaviour, old(Now()), DisableRescue(id))
      ensures err == Refusal(behaviour, old(Now()), DisableRescue(id))
    {
      err := Refusal(behaviour, Now(), DisableRescue(id));
      log := log + [DisableRescue(id)];
      if err.None? {
        servers := servers[id := servers[id].(rescueOS := "")];
      }
    }
  }
}
